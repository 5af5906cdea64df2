# libstqbackend core: access-control contract, email rendering, service names

This project is a Dafny model of three small pieces of the `libstqbackend` Rust crates:

- **`acl`**: the generic decision contract `Acl::allows`. It takes a resource, an action, a
  `CheckScope` checker supplied per call and an optional object. It answers
  `Result<bool, Error>`. The crate ships two preset evaluators: `SystemACL` (allows
  everything) and `UnauthorizedACL` (denies everything). It also declares the
  `RolesCache` interface for a per-user role store.
- **`static_resources` emails**: eight notification records, each rendered by
  `into_send_mail` into a `SimpleMail` (recipient, subject, text). There is also the
  `TemplateVariant` tag with its snake_case text form (`Display`) and parser (`FromStr`).
- **`router`**: the `Service` name (`users`, `stores`), with `Display` and a `FromStr`
  that reports unknown names as a GraphQL error with code 300.

Files:

- `prelude.dfy` (module `Prelude`): `Option`, `Result` and the `i32` user-id type.
- `text.dfy` (module `Text`): where a spliced-in argument sits in a string built by
  `format!`. `Between` strips a known prefix and suffix. `OccursAt`/`Contains` say that a
  string occurs inside another.
- `acl.dfy` (module `Acl`), `emails.dfy` (module `Emails`), `router.dfy` (module `Router`):
  one module per source file.

Modelling choices:

- The Rust traits `CheckScope` and `Acl` become arrow types. `CheckScope<Scope, T>` is
  `(i32, Scope, Option<T>) -> bool`. A Dafny `->` arrow is total and reads no state, so
  the checker's totality, its lack of an error channel and its acceptance of `None` hold
  by typing. `Acl<Resource, Action, Scope, Error, T>` is the arrow from
  `(resource, action, checker, object)` to `Result<bool, Error>`.
- The presets are unit datatypes with an `Allows` member, like the empty Rust structs.
  `AsAcl` presents each one as a value of the `Acl` type.
- `RolesCache` is only a list of signatures in the source. It is modelled as a record of
  arbitrary total operations over an implementation's hidden state (`RolesCacheOps`).
  A `RolesCache` handle object holds that state and updates it in place through its
  methods.
- The eight `Email` impls are member functions `IntoSendMail` of eight record datatypes.
  Each `format!` with `{}` placeholders becomes string concatenation.

The `RolesCache` trait declares only signatures. It does not say whether `add_roles`
replaces or merges, what `get` returns for an unknown user, or whether roles are
duplicate-free. The model states no such law, and roles are a sequence, as `Vec` is.

In `Emails`, each record datatype has the same name as one `TemplateVariant` constructor,
as in the Rust source. Inside the module the variants are written `TemplateVariant.X`.
Outside it, an unqualified call such as `OrderCreateForUser(...)` is ambiguous and does
not resolve: write `OrderCreateForUser.OrderCreateForUser(...)` for the record and
`TemplateVariant.OrderCreateForUser` for the tag.

## Model

| member | source | states |
|---|---|---|
| `Acl.SystemAcl.AsAcl` | acl/src/lib.rs:34-49 | `SystemACL`, used as an `Acl`, answers `Ok(true)` for every resource, action, scope checker and object |
| `Acl.UnauthorizedAcl.AsAcl` | acl/src/lib.rs:51-66 | `UnauthorizedACL`, used as an `Acl`, answers `Ok(false)` for every resource, action, scope checker and object |
| `Acl.PresetsIgnoreArguments` | acl/src/lib.rs:38-65 | each preset gives the same verdict for any two argument tuples, so the scope checker is never consulted and `None` and `Some(_)` objects are treated alike |
| `Acl.PresetsDisagree` | acl/src/lib.rs:47-64 | on every input both presets answer `Ok`, never `Err`, and their verdicts are opposite |
| `Acl.SystemAcl.Allows` | acl/src/lib.rs:38-48 | `SystemACL::allows`: the constant verdict `Ok(true)` (a definition; its properties are in `AsAcl`, `PresetsIgnoreArguments` and `PresetsDisagree`) |
| `Acl.UnauthorizedAcl.Allows` | acl/src/lib.rs:55-65 | `UnauthorizedACL::allows`: the constant verdict `Ok(false)` (a definition; its properties are in `AsAcl`, `PresetsIgnoreArguments` and `PresetsDisagree`) |
| `Acl.RolesCache.Get` | acl/src/lib.rs:71 | `get` always returns a (possibly empty) list of roles, as the implementation reports it, with no error channel; the handle's state is unchanged |
| `Acl.RolesCache.Contains` | acl/src/lib.rs:74 | `contains` always returns a bool, as the implementation reports it; the handle's state is unchanged |
| `Acl.RolesCache.Clear` | acl/src/lib.rs:72 | `clear` cannot fail; the new state is the implementation's `clear` of the old one |
| `Acl.RolesCache.Remove` | acl/src/lib.rs:73 | `remove` cannot fail; the new state is the implementation's `remove` of the old one for that user |
| `Acl.RolesCache.AddRoles` | acl/src/lib.rs:75 | `add_roles` cannot fail; the new state is the implementation's `add_roles` of the old one for that user and role list |
| `Emails.OrderUpdateStateForUser.IntoSendMail` | static_resources/src/emails.rs:30-41 | sent to `user.email`; the subject is `UpdateSubject(slug)`, `The order <slug> status`; the text contains the new order state and the link `<cluster_url>/profile/orders/<slug>` |
| `Emails.OrderUpdateStateForStore.IntoSendMail` | static_resources/src/emails.rs:52-63 | sent to `store_email`; the subject is `UpdateSubject(slug)`, `The order <slug> status`; the text contains the new order state and the link `<cluster_url>/manage/store/<store_id>/orders/<slug>` |
| `Emails.OrderCreateForUser.IntoSendMail` | static_resources/src/emails.rs:72-83 | sent to `user.email`; the subject is `CreateSubject(slug)`, `New order <slug>.`; the text contains the link `<cluster_url>/profile/orders/<slug>` |
| `Emails.OrderCreateForStore.IntoSendMail` | static_resources/src/emails.rs:93-104 | sent to `store_email`; the subject is `CreateSubject(slug)`, `New order <slug>.`; the text contains the link `<cluster_url>/manage/store/<store_id>/orders/<slug>` |
| `Emails.EmailVerificationForUser.IntoSendMail` | static_resources/src/emails.rs:113-121 | sent to `user.email` with the fixed subject `Verify your account on Storiqa`; the text is the verification path, a slash, and exactly the token |
| `Emails.PasswordResetForUser.IntoSendMail` | static_resources/src/emails.rs:130-138 | sent to `user.email` with the fixed subject `Password reset`; the text is the reset path, a slash, and exactly the token |
| `Emails.ApplyPasswordResetForUser.IntoSendMail` | static_resources/src/emails.rs:146-154 | sent to `user.email`, with a fixed subject and a fixed text |
| `Emails.ApplyEmailVerificationForUser.IntoSendMail` | static_resources/src/emails.rs:161-169 | sent to `user.email`, with a fixed subject and a fixed text |
| `Emails.UpdateSubject` | static_resources/src/emails.rs:34-56 | the subject both order-update mails use: the order slug between `The order ` and ` status`, recoverable exactly from the subject |
| `Emails.CreateSubject` | static_resources/src/emails.rs:76-97 | the subject both order-create mails use: the order slug between `New order ` and `.`, recoverable exactly from the subject |
| `Emails.OrderSubjectIdentifiesOrder` | static_resources/src/emails.rs:34-97 | for all slugs: two update subjects are equal only for equal slugs, and likewise two create subjects; this covers all four order records, which share these subjects |
| `Emails.UpdateAndCreateSubjectsDiffer` | static_resources/src/emails.rs:34-97 | for all slugs: an order-update subject never equals an order-create subject, so no update mail of either record shares a subject with a create mail |
| `Emails.ConfirmationsDependOnAddressOnly` | static_resources/src/emails.rs:146-169 | the two confirmation mails depend only on the recipient address: `cluster_url` and the user's names never reach them |
| `Emails.TemplateVariant.ToString` | static_resources/src/emails.rs:209-222 | the `Display` text: each variant's snake_case name (a definition; its properties are in `FromStrOfToString`, `FromStrOkIff` and `ToStringInjective`) |
| `Emails.TemplateVariant.FromStr` | static_resources/src/emails.rs:192-207 | a successful parse names a variant whose text form is the input; the parse fails with `Err(())` exactly when no variant renders to the input |
| `Emails.FromStrOfToString` | static_resources/src/emails.rs:192-222 | round trip: every variant parses back from its `Display` text |
| `Emails.FromStrOkIff` | static_resources/src/emails.rs:195-220 | `from_str(s) == Ok(v)` if and only if `v` renders to `s` |
| `Emails.ToStringInjective` | static_resources/src/emails.rs:209-222 | distinct variants render to distinct names |
| `Emails.VariantNamesAreNotParsed` | static_resources/src/emails.rs:195-204 | illustration of `FromStr`'s rejection clause on three sample inputs: the Rust variant name `OrderCreateForUser`, a kebab-case spelling and the empty string |
| `Router.Service.ToString` | router/src/service.rs:11-18 | the `Display` text: `Users` is `users`, `Stores` is `stores`; proved to be a non-empty lower-case snake_case name (the codec properties are in `FromStrOfToString`, `FromStrOkIff` and `ToStringInjective`) |
| `Router.Service.FromStr` | router/src/service.rs:20-35 | a successful parse names the service whose text is the input; the parse fails exactly for inputs other than `users` and `stores`; the error has message `Unknown service`, code 300, and details that quote exactly the input |
| `Router.FromStrOfToString` | router/src/service.rs:11-35 | round trip: both services parse back from their `Display` text |
| `Router.FromStrOkIff` | router/src/service.rs:11-35 | `from_str(x) == Ok(s)` if and only if `s` renders to `x` |
| `Router.ToStringInjective` | router/src/service.rs:11-18 | the two services render to different names |
| `Router.ErrorsIdentifyInput` | router/src/service.rs:27-31 | two rejected inputs that give equal errors are the same input |
| `Router.NamesAreExact` | router/src/service.rs:24-27 | illustration of `FromStr`'s rejection clause on four sample inputs: matching is exact and case sensitive, so `Users`, `STORES`, `user` and `users ` are rejected |

## Left out

- `DbConnection` (acl/src/lib.rs:10): an alias for a diesel/r2d2 pooled database connection, a foreign type with no logic.
- `RolesCache` concurrency: the `Clone + Send + 'static` bounds and shared-handle semantics across threads. Only the sequential interface is modelled.
- `Acl.RolesCache.Get`: it also promises that reading does not change the cache. The Rust signature takes `&self` and could mutate interior state, so this is stronger than the source's types guarantee. It is what any sensible implementation does.
- `Acl.RolesCache.Contains`: it also promises that the query does not change the cache. The Rust signature `fn contains(&self, …)` takes `&self` and could mutate interior state, so this, like `Get`, is stronger than the source's types guarantee.
- `RolesCache` laws: the source describes no relation between the operations (replace or merge on `add_roles`, the result of `get` for an absent user), so none is stated.
- Concrete per-service ACL decision tables and cache filling from a store: they are not part of the crates modelled.
- serde `Serialize`/`Deserialize`, the juniper `GraphQLEnum` annotations and descriptions, and the `DieselTypes` derive: derived library behaviour.
- juniper `FieldError` and `graphql_value!`: the error is abstracted to a message, an integer code and the details string. The nesting of the details inside the GraphQL extension object is not modelled.
- HTML well-formedness of the email bodies: the code splices strings without escaping, and so does the model.
- `Emails.OrderUpdateStateForUser.IntoSendMail`: the contract pins the recipient, the subject, and that the text contains the order state and the order link. It does not pin the full wording of the text or where the state appears in it.
- `Emails.OrderUpdateStateForStore.IntoSendMail`: the same as above. It pins the recipient, the subject, and the order state and store order link inside the text, not the full wording of the text.
- `Emails.OrderCreateForUser.IntoSendMail`: the contract pins the recipient, the subject slug and the link in the text, not the full wording of the text.
- `Emails.OrderCreateForStore.IntoSendMail`: the contract pins the recipient, the subject slug and the link in the text, not the full wording of the text.
- Move semantics of `into_send_mail(self)`: the records are values, so consuming them is not modelled.
- `types/src/structs.rs` (plain data records) and `static_resources/src/lib.rs` (crate declarations and re-exports of `isolang::Language` and a `currency` module) are not part of this model.
