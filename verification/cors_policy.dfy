/** The origin gate of the API's CORS configuration: the `origin` callback and
    the constant `credentials` and `methods` options passed to the `cors`
    middleware. */
module CorsPolicy {
  import opened Wrappers
  import opened Environment

  /** The two local front-end origins, admitted in every mode. */
  const LocalViteOrigin: string := "http://localhost:5173"
  const LocalReactOrigin: string := "http://localhost:3000"

  /** The host of the production website. */
  const ProductionHostName: string := "tan-aardvark-644850.hostingersite.com"

  /** The one production website origin,
      `https://tan-aardvark-644850.hostingersite.com`. */
  const ProductionOrigin: string := "https://" + ProductionHostName

  /** Message of the error handed to the callback on rejection. */
  const CorsErrorMessage: string := "Not allowed by CORS"

  /** Every non-empty origin that production admits, as a set. */
  const ProductionAllowList: set<string> := {LocalViteOrigin, LocalReactOrigin, ProductionOrigin}

  datatype Decision = Allow | Reject(message: string)

  /** Reference description of the gate, independent of the order of the tests:
      development admits everything; production admits exactly the members of
      the allow-list and a missing or empty origin. */
  predicate Admits(mode: Mode, origin: Option<string>)
  {
    match origin
    case None => true
    case Some(o) => mode == Development || o == "" || o in ProductionAllowList
  }

  /** The decision of the `origin` callback, taken by the source's tests in the
      source's order: the local origins, then (production only) the production
      origin, then (production only) a falsy origin, then reject in production
      and allow otherwise. */
  function Decide(mode: Mode, origin: Option<string>): (d: Decision)
    ensures d == Allow <==> Admits(mode, origin)
    ensures d.Reject? ==> mode == Production && d.message == CorsErrorMessage
  {
    if origin == Some(LocalViteOrigin) || origin == Some(LocalReactOrigin) then Allow
    else if mode == Production then
      if origin == Some(ProductionOrigin) then Allow
      else if IsFalsy(origin) then Allow
      else Reject(CorsErrorMessage)
    else Allow
  }

  /** The arguments of one `callback(err, allow)` invocation; an omitted
      argument is `None`. */
  datatype CallbackArgs = CallbackArgs(err: Option<string>, allow: Option<bool>)

  /** The invocation that reports a decision: `callback(null, true)` for Allow,
      `callback(new Error(message))` for Reject. */
  function Report(d: Decision): (a: CallbackArgs)
    ensures a.allow == Some(true) <==> d == Allow
    ensures a.err.Some? <==> d.Reject?
    ensures d.Reject? ==> a.allow.None? && a.err == Some(d.message)
  {
    match d
    case Allow => CallbackArgs(None, Some(true))
    case Reject(m) => CallbackArgs(Some(m), None)
  }

  /** The callback body statement by statement, reading `NODE_ENV` directly;
      `calls` records every invocation of `callback`. Each branch invokes it and
      returns at once, so it is invoked exactly once, with the decision of
      `Decide` for the mode that `NODE_ENV` selects. */
  method OriginCallback(origin: Option<string>, nodeEnv: Option<string>) returns (calls: seq<CallbackArgs>)
    ensures |calls| == 1
    ensures calls[0] == Report(Decide(ModeOf(nodeEnv), origin))
    ensures calls[0].allow == Some(true) <==> Admits(ModeOf(nodeEnv), origin)
  {
    calls := [];
    if origin == Some(LocalViteOrigin) || origin == Some(LocalReactOrigin) {
      calls := calls + [CallbackArgs(None, Some(true))];
      return;
    }
    if nodeEnv == Some(ProductionTag) {
      if origin == Some(ProductionOrigin) {
        calls := calls + [CallbackArgs(None, Some(true))];
        return;
      }
      if IsFalsy(origin) {
        calls := calls + [CallbackArgs(None, Some(true))];
        return;
      }
      calls := calls + [CallbackArgs(Some(CorsErrorMessage), None)];
      return;
    }
    calls := calls + [CallbackArgs(None, Some(true))];
  }

  /** The two local front-end origins are admitted whatever the mode. */
  lemma LocalOriginsAlwaysAllowed(mode: Mode)
    ensures Decide(mode, Some(LocalViteOrigin)) == Allow
    ensures Decide(mode, Some(LocalReactOrigin)) == Allow
  {
  }

  /** In production a present, non-empty origin is admitted exactly when it is
      one of the three listed strings; every other one gets the CORS error. */
  lemma ProductionAdmitsExactlyTheAllowList(o: string)
    requires o != ""
    ensures Decide(Production, Some(o)) == Allow <==> o in ProductionAllowList
    ensures o !in ProductionAllowList ==> Decide(Production, Some(o)) == Reject(CorsErrorMessage)
  {
  }

  /** In production a missing origin and an empty origin are both admitted. */
  lemma ProductionAdmitsFalsyOrigin(origin: Option<string>)
    requires IsFalsy(origin)
    ensures Decide(Production, origin) == Allow
  {
  }

  /** Outside production the gate admits every origin, missing ones included. */
  lemma NonProductionAdmitsEverything(nodeEnv: Option<string>, origin: Option<string>)
    requires nodeEnv != Some(ProductionTag)
    ensures Decide(ModeOf(nodeEnv), origin) == Allow
  {
  }

  /** Matching is exact string equality: a trailing slash, another port, another
      scheme or another letter case is rejected in production. */
  lemma ProductionRejectsNearMisses()
    ensures Decide(Production, Some(ProductionOrigin + "/")).Reject?
    ensures Decide(Production, Some("http://" + ProductionHostName)).Reject?
    ensures Decide(Production, Some(ProductionOrigin + ":443")).Reject?
    ensures Decide(Production, Some("https://" + "Tan-Aardvark-644850.hostingersite.com")).Reject?
    ensures Decide(Production, Some("http://localhost:5174")).Reject?
    ensures Decide(Production, Some("http://127.0.0.1:5173")).Reject?
    ensures Decide(Production, Some("https://localhost:3000")).Reject?
  {
    // The fourth case is the production origin with two letters upper-cased;
    // it differs from the origin at index 8, the host's first letter.
    var upper := "https://" + "Tan-Aardvark-644850.hostingersite.com";
    assert upper[8] != ProductionOrigin[8];
  }

  /** Production admits a subset of what development admits, and the subset is
      proper: some origin is admitted in development only. */
  lemma ProductionIsStricter(origin: Option<string>)
    ensures Decide(Production, origin) == Allow ==> Decide(Development, origin) == Allow
    ensures Decide(Development, Some("https://evil.example")) == Allow
    ensures Decide(Production, Some("https://evil.example")).Reject?
  {
  }

  /** The falsy-origin branch covers only a missing or empty origin: the
      header value `null`, which some WebViews send, is a non-empty string and
      is rejected in production. */
  lemma ProductionRejectsLiteralNullOrigin()
    ensures Decide(Production, Some("null")) == Reject(CorsErrorMessage)
    ensures Decide(Production, None) == Allow
    ensures Decide(Production, Some("")) == Allow
  {
  }

  /** A missing origin and an empty origin are treated alike in every mode. */
  lemma AbsentAndEmptyOriginAgree(mode: Mode)
    ensures Decide(mode, None) == Decide(mode, Some(""))
  {
  }

  /** The options handed to the `cors` middleware besides the origin callback. */
  datatype CorsOptions = CorsOptions(credentials: bool, methods: seq<string>)

  const Options: CorsOptions := CorsOptions(true, ["GET", "POST", "PUT", "DELETE", "OPTIONS"])

  /** Credentials are always enabled, and the allowed methods are exactly five
      distinct verbs, the preflight verb among them. */
  lemma OptionsAreFixed()
    ensures Options.credentials
    ensures |Options.methods| == 5
    ensures forall i, j :: 0 <= i < j < |Options.methods| ==> Options.methods[i] != Options.methods[j]
    ensures "OPTIONS" in Options.methods
    ensures forall m :: m in Options.methods <==> m in {"GET", "POST", "PUT", "DELETE", "OPTIONS"}
  {
  }
}
