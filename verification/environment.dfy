/** The slice of `process.env` the access-control gate reads, and the deployment
    mode derived from it. */
module Environment {
  import opened Wrappers

  /** The only `NODE_ENV` value that selects production behaviour. */
  const ProductionTag: string := "production"

  datatype Mode = Development | Production

  /** The environment variables read by the gate; an unset variable is `None`. */
  datatype ProcessEnv = ProcessEnv(nodeEnv: Option<string>, jwtSecret: Option<string>)

  /** JavaScript's `!x` for a value that is a string or `undefined`: true for
      `undefined` and for the empty string, false for every other string. */
  predicate IsFalsy(x: Option<string>)
  {
    x.None? || x == Some("")
  }

  /** The mode selected by `process.env.NODE_ENV === "production"`: the test is
      exact and case-sensitive, and every other value, unset included, means
      development. */
  function ModeOf(nodeEnv: Option<string>): (m: Mode)
    ensures m == Production <==> nodeEnv == Some(ProductionTag)
    ensures nodeEnv.None? ==> m == Development
  {
    if nodeEnv == Some(ProductionTag) then Production else Development
  }

  /** Deployment-mode detection fails open: anything short of the exact tag,
      including near misses in case or spelling, yields development. */
  lemma ModeDetectionFailsOpen(nodeEnv: Option<string>)
    requires nodeEnv != Some(ProductionTag)
    ensures ModeOf(nodeEnv) == Development
    ensures ModeOf(Some("Production")) == Development
    ensures ModeOf(Some("production ")) == Development
    ensures ModeOf(Some("prod")) == Development
  {
  }
}
