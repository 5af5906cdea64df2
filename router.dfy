/** The `router` crate's `Service` name: its text form and the parser back from it. */
module Router {
  import opened Prelude
  import opened Text

  /** The GraphQL error `from_str` raises: a message plus the `code` and `details` extensions. */
  datatype FieldError = FieldError(message: string, code: int, details: string)

  /** What `details` holds in front of and behind the offending service name. */
  const DetailsPrefix := "Can not resolve service name. Unknown service: '"
  const DetailsSuffix := "'"

  /** A microservice the router can address. */
  datatype Service = Users | Stores {

    /** The `Display` form of the service name: a lower-case word. */
    function ToString(): (r: string)
      ensures IsSnakeCase(r)
    {
      match this
      case Users => "users"
      case Stores => "stores"
    }

    /** `FromStr`: parses an exact, lower-case service name; anything else is an
        "Unknown service" error with code 300 whose details quote the input. */
    static function FromStr(s: string): (r: Result<Service, FieldError>)
      ensures r.Ok? ==> r.value.ToString() == s
      ensures r.Err? <==> s != "users" && s != "stores"
      ensures r.Err? ==> r.error.message == "Unknown service" && r.error.code == 300
      ensures r.Err? ==> Between(r.error.details, DetailsPrefix, DetailsSuffix) == Some(s)
    {
      match s
      case "users" => Ok(Users)
      case "stores" => Ok(Stores)
      case _ =>
        BetweenOfSplice(DetailsPrefix, s, DetailsSuffix);
        Err(FieldError("Unknown service", 300, DetailsPrefix + s + DetailsSuffix))
    }
  }

  /** Round trip: every service parses back from its own name. */
  lemma FromStrOfToString(v: Service)
    ensures Service.FromStr(v.ToString()) == Ok(v)
  {
  }

  /** The parser accepts exactly the rendered names, and only for the service rendered. */
  lemma FromStrOkIff(s: string, v: Service)
    ensures Service.FromStr(s) == Ok(v) <==> v.ToString() == s
  {
  }

  /** Distinct services render to distinct names. */
  lemma ToStringInjective(v: Service, w: Service)
    ensures v.ToString() == w.ToString() ==> v == w
  {
  }

  /** Two different unknown names give two different errors: the error identifies its input. */
  lemma ErrorsIdentifyInput(s: string, t: string)
    requires Service.FromStr(s).Err? && Service.FromStr(t).Err?
    ensures Service.FromStr(s) == Service.FromStr(t) ==> s == t
  {
  }

  /** Illustration of `FromStr`'s rejection clause on four inputs: matching is exact and
      case-sensitive, so capitalised, singular and padded names are unknown. */
  lemma NamesAreExact()
    ensures Service.FromStr("Users").Err? && Service.FromStr("STORES").Err?
    ensures Service.FromStr("user").Err? && Service.FromStr("users ").Err?
  {
  }
}
