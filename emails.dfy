/** The `static_resources` crate's transactional emails: eight notification records, each
    rendered to a `SimpleMail`, and the `TemplateVariant` tag that names them as text. */
module Emails {
  import opened Prelude
  import opened Text

  /** A rendered mail, ready for the notification service. */
  datatype SimpleMail = SimpleMail(to: string, subject: string, text: string)

  /** The addressee of a user-facing mail. */
  datatype EmailUser = EmailUser(email: string, firstName: string, lastName: string)

  /** The link a customer follows to see one of their orders. */
  function UserOrderLink(clusterUrl: string, orderSlug: string): string
  {
    clusterUrl + "/profile/orders/" + orderSlug
  }

  /** The link a store manager follows to see an order placed with their store. */
  function StoreOrderLink(clusterUrl: string, storeId: string, orderSlug: string): string
  {
    clusterUrl + "/manage/store/" + storeId + "/orders/" + orderSlug
  }

  const UpdateSubjectPrefix := "The order "
  const UpdateSubjectSuffix := " status"
  const CreateSubjectPrefix := "New order "
  const CreateSubjectSuffix := "."

  /** The subject of both order-update mails: the slug between fixed words. */
  function UpdateSubject(orderSlug: string): (r: string)
    ensures Between(r, UpdateSubjectPrefix, UpdateSubjectSuffix) == Some(orderSlug)
  {
    BetweenOfSplice(UpdateSubjectPrefix, orderSlug, UpdateSubjectSuffix);
    UpdateSubjectPrefix + orderSlug + UpdateSubjectSuffix
  }

  /** The subject of both order-create mails: the slug between fixed words. */
  function CreateSubject(orderSlug: string): (r: string)
    ensures Between(r, CreateSubjectPrefix, CreateSubjectSuffix) == Some(orderSlug)
  {
    BetweenOfSplice(CreateSubjectPrefix, orderSlug, CreateSubjectSuffix);
    CreateSubjectPrefix + orderSlug + CreateSubjectSuffix
  }

  /** The customer is told that their order changed state. */
  datatype OrderUpdateStateForUser =
    OrderUpdateStateForUser(user: EmailUser, orderSlug: string, orderState: string, clusterUrl: string)
  {
    function IntoSendMail(): (m: SimpleMail)
      ensures m.to == user.email
      ensures m.subject == UpdateSubject(orderSlug)
      ensures Contains(m.text, UserOrderLink(clusterUrl, orderSlug))
      ensures Contains(m.text, orderState)
    {
      OccursInLongSplice("Orders' " + orderSlug + " state is '", orderState,
        "' now. You can view current info about your order on <a href=\"", UserOrderLink(clusterUrl, orderSlug),
        "\">this page</a>.");
      var before := "Orders' " + orderSlug + " state is '" + orderState
        + "' now. You can view current info about your order on <a href=\"";
      var after := "\">this page</a>.";
      OccursInSplice(before, UserOrderLink(clusterUrl, orderSlug), after);
      SimpleMail(user.email, UpdateSubject(orderSlug),
                 before + UserOrderLink(clusterUrl, orderSlug) + after)
    }
  }

  /** The store is told that one of its orders changed state. */
  datatype OrderUpdateStateForStore =
    OrderUpdateStateForStore(storeEmail: string, orderSlug: string, orderState: string, clusterUrl: string,
                             storeId: string)
  {
    function IntoSendMail(): (m: SimpleMail)
      ensures m.to == storeEmail
      ensures m.subject == UpdateSubject(orderSlug)
      ensures Contains(m.text, StoreOrderLink(clusterUrl, storeId, orderSlug))
      ensures Contains(m.text, orderState)
    {
      OccursInLongSplice("Orders' " + orderSlug + " state is '", orderState,
        "' now. You can view current order info on <a href=\"", StoreOrderLink(clusterUrl, storeId, orderSlug),
        "\">this page</a>.");
      var before := "Orders' " + orderSlug + " state is '" + orderState
        + "' now. You can view current order info on <a href=\"";
      var after := "\">this page</a>.";
      OccursInSplice(before, StoreOrderLink(clusterUrl, storeId, orderSlug), after);
      SimpleMail(storeEmail, UpdateSubject(orderSlug),
                 before + StoreOrderLink(clusterUrl, storeId, orderSlug) + after)
    }
  }

  /** The customer is told that their order was placed. */
  datatype OrderCreateForUser = OrderCreateForUser(user: EmailUser, orderSlug: string, clusterUrl: string)
  {
    function IntoSendMail(): (m: SimpleMail)
      ensures m.to == user.email
      ensures m.subject == CreateSubject(orderSlug)
      ensures Contains(m.text, UserOrderLink(clusterUrl, orderSlug))
    {
      var before := "Order " + orderSlug
        + " was created. You can view current info about your order on <a href=\"";
      var after := "\">this page</a>.";
      OccursInSplice(before, UserOrderLink(clusterUrl, orderSlug), after);
      SimpleMail(user.email, CreateSubject(orderSlug),
                 before + UserOrderLink(clusterUrl, orderSlug) + after)
    }
  }

  /** The store is told that an order was placed with it. */
  datatype OrderCreateForStore =
    OrderCreateForStore(storeEmail: string, orderSlug: string, clusterUrl: string, storeId: string)
  {
    function IntoSendMail(): (m: SimpleMail)
      ensures m.to == storeEmail
      ensures m.subject == CreateSubject(orderSlug)
      ensures Contains(m.text, StoreOrderLink(clusterUrl, storeId, orderSlug))
    {
      var before := "Order " + orderSlug + " was created. You can view current order info on <a href=\"";
      var after := "\">this page</a>.";
      OccursInSplice(before, StoreOrderLink(clusterUrl, storeId, orderSlug), after);
      SimpleMail(storeEmail, CreateSubject(orderSlug),
                 before + StoreOrderLink(clusterUrl, storeId, orderSlug) + after)
    }
  }

  /** The user is sent the link that confirms their address: the path, a slash, the token. */
  datatype EmailVerificationForUser = EmailVerificationForUser(user: EmailUser, verifyEmailPath: string, token: string)
  {
    function IntoSendMail(): (m: SimpleMail)
      ensures m.to == user.email
      ensures m.subject == "Verify your account on Storiqa"
      ensures Between(m.text, verifyEmailPath + "/", "") == Some(token)
    {
      BetweenOfSplice(verifyEmailPath + "/", token, "");
      assert verifyEmailPath + "/" + token + "" == verifyEmailPath + "/" + token;
      SimpleMail(user.email, "Verify your account on Storiqa", verifyEmailPath + "/" + token)
    }
  }

  /** The user is sent the link that lets them choose a new password. */
  datatype PasswordResetForUser = PasswordResetForUser(user: EmailUser, resetPasswordPath: string, token: string)
  {
    function IntoSendMail(): (m: SimpleMail)
      ensures m.to == user.email
      ensures m.subject == "Password reset"
      ensures Between(m.text, resetPasswordPath + "/", "") == Some(token)
    {
      BetweenOfSplice(resetPasswordPath + "/", token, "");
      assert resetPasswordPath + "/" + token + "" == resetPasswordPath + "/" + token;
      SimpleMail(user.email, "Password reset", resetPasswordPath + "/" + token)
    }
  }

  /** The user is told that the new password is in force. */
  datatype ApplyPasswordResetForUser = ApplyPasswordResetForUser(user: EmailUser, clusterUrl: string)
  {
    function IntoSendMail(): (m: SimpleMail)
      ensures m.to == user.email
      ensures m.subject == "Successful password reset"
      ensures m.text == "Password for linked account has been successfully reset."
    {
      SimpleMail(user.email, "Successful password reset", "Password for linked account has been successfully reset.")
    }
  }

  /** The user is told that their address is verified. */
  datatype ApplyEmailVerificationForUser = ApplyEmailVerificationForUser(user: EmailUser)
  {
    function IntoSendMail(): (m: SimpleMail)
      ensures m.to == user.email
      ensures m.subject == "Successful registration"
      ensures m.text == "Email for linked account has been verified."
    {
      SimpleMail(user.email, "Successful registration", "Email for linked account has been verified.")
    }
  }

  /** An order mail's subject names its order: equal subjects of one kind mean equal slugs.
      Both update records and both create records share these subjects. */
  lemma OrderSubjectIdentifiesOrder(s: string, t: string)
    ensures UpdateSubject(s) == UpdateSubject(t) ==> s == t
    ensures CreateSubject(s) == CreateSubject(t) ==> s == t
  {
  }

  /** An update subject never reads as a creation subject, whatever the slugs: they differ in
      their first letter. */
  lemma UpdateAndCreateSubjectsDiffer(s: string, t: string)
    ensures UpdateSubject(s) != CreateSubject(t)
  {
    assert UpdateSubject(s)[0] == 'T';
    assert CreateSubject(t)[0] == 'N';
  }

  /** The confirmation mails depend on the recipient's address alone: neither the cluster url
      nor the user's names reach them. */
  lemma ConfirmationsDependOnAddressOnly(a: ApplyPasswordResetForUser, a': ApplyPasswordResetForUser,
                                         b: ApplyEmailVerificationForUser, b': ApplyEmailVerificationForUser)
    ensures a.user.email == a'.user.email ==> a.IntoSendMail() == a'.IntoSendMail()
    ensures b.user.email == b'.user.email ==> b.IntoSendMail() == b'.IntoSendMail()
  {
  }

  /** Names an email template; the text form is the snake_case name. */
  datatype TemplateVariant =
    | OrderCreateForUser
    | OrderUpdateStateForUser
    | OrderCreateForStore
    | OrderUpdateStateForStore
    | EmailVerificationForUser
    | PasswordResetForUser
    | ApplyPasswordResetForUser
    | ApplyEmailVerificationForUser
  {
    /** The `Display` form: the snake_case name of the variant. */
    function ToString(): string
    {
      match this
      case OrderCreateForUser => "order_create_for_user"
      case OrderUpdateStateForUser => "order_update_state_for_user"
      case OrderCreateForStore => "order_create_for_store"
      case OrderUpdateStateForStore => "order_update_state_for_store"
      case EmailVerificationForUser => "email_verification_for_user"
      case PasswordResetForUser => "password_reset_for_user"
      case ApplyPasswordResetForUser => "apply_password_reset_for_user"
      case ApplyEmailVerificationForUser => "apply_email_verification_for_user"
    }

    /** `FromStr`: accepts exactly the eight snake_case names, and rejects everything else
        with the unit error. */
    static function FromStr(s: string): (r: Result<TemplateVariant, ()>)
      ensures r.Ok? ==> r.value.ToString() == s
      ensures r.Err? <==> forall v: TemplateVariant :: v.ToString() != s
    {
      match s
      case "order_create_for_user" => Ok(TemplateVariant.OrderCreateForUser)
      case "order_update_state_for_user" => Ok(TemplateVariant.OrderUpdateStateForUser)
      case "order_create_for_store" => Ok(TemplateVariant.OrderCreateForStore)
      case "order_update_state_for_store" => Ok(TemplateVariant.OrderUpdateStateForStore)
      case "email_verification_for_user" => Ok(TemplateVariant.EmailVerificationForUser)
      case "password_reset_for_user" => Ok(TemplateVariant.PasswordResetForUser)
      case "apply_password_reset_for_user" => Ok(TemplateVariant.ApplyPasswordResetForUser)
      case "apply_email_verification_for_user" => Ok(TemplateVariant.ApplyEmailVerificationForUser)
      case _ => Err(())
    }
  }

  /** Round trip: every variant parses back from its own name. */
  lemma FromStrOfToString(v: TemplateVariant)
    ensures TemplateVariant.FromStr(v.ToString()) == Ok(v)
  {
  }

  /** The parser accepts a string for a variant exactly when that variant renders to it. */
  lemma FromStrOkIff(s: string, v: TemplateVariant)
    ensures TemplateVariant.FromStr(s) == Ok(v) <==> v.ToString() == s
  {
  }

  /** Distinct variants render to distinct names. */
  lemma ToStringInjective(v: TemplateVariant, w: TemplateVariant)
    ensures v.ToString() == w.ToString() ==> v == w
  {
  }

  /** Illustration of `FromStr`'s rejection clause on three inputs: the Rust variant name, a
      kebab-case spelling and the empty string are not template names. */
  lemma VariantNamesAreNotParsed()
    ensures TemplateVariant.FromStr("OrderCreateForUser") == Err(())
    ensures TemplateVariant.FromStr("order-create-for-user") == Err(())
    ensures TemplateVariant.FromStr("") == Err(())
  {
  }
}
