/** Translation from any wire format to any other through the canonical form. */
module Registry {
  import opened Canonical

  datatype Result<+T> = Ok(value: T) | Err(error: Error)

  datatype Error =
    | NoSource(format: string)
    | NoTarget(format: string)
    | Unreadable(message: string)
    | Unprintable(message: string)

  /** A format's parser and printer. */
  datatype Translator<!Body> = Translator(toCanonical: Body -> Result<Request>, fromCanonical: Request -> Result<Body>)

  /** A nonempty model replaces the one the inbound body carried. */
  function Substituted(c: Request, model: string): Request {
    if model != "" then c.(model := model) else c
  }

  function Translated<Body>(translators: map<string, Translator<Body>>, source: string, target: string,
                            body: Body, model: string): Result<(Request, Body)>
  {
    if source !in translators then Err(NoSource(source))
    else
      match translators[source].toCanonical(body)
      case Err(e) => Err(e)
      case Ok(parsed) =>
        if target !in translators then Err(NoTarget(target))
        else
          match translators[target].fromCanonical(Substituted(parsed, model))
          case Err(e) => Err(e)
          case Ok(printed) => Ok((Substituted(parsed, model), printed))
  }

  class Registry<Body> {
    var translators: map<string, Translator<Body>>

    constructor ()
      ensures translators == map[]
    {
      translators := map[];
    }

    method Register(format: string, t: Translator<Body>)
      modifies this
      ensures translators == old(translators)[format := t]
    {
      translators := translators[format := t];
    }

    method TranslateRequest(source: string, target: string, body: Body, model: string)
        returns (r: Result<(Request, Body)>)
      ensures r == Translated(translators, source, target, body, model)
    {
      if source !in translators {
        return Err(NoSource(source));
      }
      var parsed := translators[source].toCanonical(body);
      if parsed.Err? {
        return Err(parsed.error);
      }
      var request := parsed.value;
      if model != "" {
        request := request.(model := model);
      }
      if target !in translators {
        return Err(NoTarget(target));
      }
      var printed := translators[target].fromCanonical(request);
      if printed.Err? {
        return Err(printed.error);
      }
      r := Ok((request, printed.value));
    }
  }
}
