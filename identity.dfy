/** The identity scope that namespaces external message references: `CALLSIGN` or
    `CALLSIGN@STATION`. The environment variables are passed in as parameters. */
module Identity {
  import opened Text

  /** The callsign in effect: the argument, else the environment's, upper-cased and trimmed. */
  function EffectiveCallsign(callsign: string, envCallsign: string): (cs: string)
    ensures cs == "" <==> AllSpace(callsign) && AllSpace(envCallsign)
    ensures AllSpace(callsign) ==> cs == ToUpper(TrimSpace(envCallsign))
    ensures !AllSpace(callsign) ==> cs == ToUpper(TrimSpace(callsign))
  {
    TrimSpaceEmpty(callsign);
    TrimSpaceEmpty(envCallsign);
    var cs := ToUpper(TrimSpace(callsign));
    if cs == "" then ToUpper(TrimSpace(envCallsign)) else cs
  }

  /** The station qualifier in effect: the trimmed environment value, "default" when blank. */
  function EffectiveStation(envStation: string): (st: string)
    ensures st != ""
    ensures AllSpace(envStation) ==> st == "default"
    ensures !AllSpace(envStation) ==> st == TrimSpace(envStation)
  {
    TrimSpaceEmpty(envStation);
    var st := TrimSpace(envStation);
    if st == "" then "default" else st
  }

  /** `runtime.IdentityScope`, with RELAYOPS_CALLSIGN and RELAYOPS_STATION as parameters. */
  function IdentityScope(callsign: string, envCallsign: string, envStation: string): (scope: string)
    ensures scope == "" <==> AllSpace(callsign) && AllSpace(envCallsign)
  {
    var cs := EffectiveCallsign(callsign, envCallsign);
    var station := EffectiveStation(envStation);
    if cs == "" then ""
    else if station == "default" then cs
    else cs + "@" + station
  }

  /** With no callsign anywhere the scope is empty, whatever the station. */
  lemma ScopeEmptyWithoutCallsign(callsign: string, envCallsign: string, envStation: string)
    requires AllSpace(callsign) && AllSpace(envCallsign)
    ensures IdentityScope(callsign, envCallsign, envStation) == ""
  {
  }

  /** A blank or "default" station yields the bare callsign; any other station is appended after
      '@' trimmed but with its case kept. */
  lemma {:induction false} ScopeShape(callsign: string, envCallsign: string, envStation: string)
    requires !(AllSpace(callsign) && AllSpace(envCallsign))
    ensures var cs := EffectiveCallsign(callsign, envCallsign);
            var t := TrimSpace(envStation);
            IdentityScope(callsign, envCallsign, envStation)
              == if t == "" || t == "default" then cs else cs + "@" + t
  {
    TrimSpaceEmpty(envStation);
  }

  lemma {:induction false} ToUpperIdempotent(s: string)
    ensures ToUpper(ToUpper(s)) == ToUpper(s)
  {
    var u := ToUpper(s);
    assert forall i | 0 <= i < |s| :: ToUpperChar(u[i]) == u[i];
  }

  /** An upper-cased, trimmed, non-empty callsign is taken as it is. */
  lemma {:induction false} CanonicalCallsign(cs: string, envCallsign: string)
    requires cs != "" && Trimmed(cs) && ToUpper(cs) == cs
    ensures EffectiveCallsign(cs, envCallsign) == cs
  {
    assert !IsSpace(cs[0]);
    TrimSpaceOfTrimmed(cs);
  }

  /** The effective callsign is upper-cased and trimmed. */
  lemma {:induction false} EffectiveCallsignCanonical(callsign: string, envCallsign: string)
    ensures var cs := EffectiveCallsign(callsign, envCallsign);
            Trimmed(cs) && ToUpper(cs) == cs
  {
    var t := if AllSpace(callsign) then TrimSpace(envCallsign) else TrimSpace(callsign);
    var cs := ToUpper(t);
    assert EffectiveCallsign(callsign, envCallsign) == cs;
    if t != [] {
      ToUpperKeepsSpaces(t[0]);
      ToUpperKeepsSpaces(t[|t| - 1]);
    }
    ToUpperIdempotent(t);
  }

  /** A scope built without a station qualifier is already canonical: deriving a scope from it
      again returns it unchanged, which is what lets importers recompute it consistently. */
  lemma {:induction false} ScopeStable(callsign: string, envCallsign: string)
    ensures var s := IdentityScope(callsign, envCallsign, "");
            IdentityScope(s, envCallsign, "") == s
  {
    var cs := EffectiveCallsign(callsign, envCallsign);
    assert EffectiveStation("") == "default";
    if cs != "" {
      EffectiveCallsignCanonical(callsign, envCallsign);
      CanonicalCallsign(cs, envCallsign);
    }
  }
}
