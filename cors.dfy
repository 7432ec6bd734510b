/** The CORS policy of the API: the allowed origins come from the comma-separated
    `CORS_ORIGIN` setting, and a request origin is accepted when it is absent, when no
    origins are configured, or when it is one of them. */
module Cors {
  import opened Js

  /** `.map(s => s.trim())` */
  function TrimAll(parts: seq<string>): (trimmed: seq<string>)
    ensures |trimmed| == |parts|
    ensures forall i :: 0 <= i < |parts| ==> trimmed[i] == Trim(parts[i])
  {
    if parts == [] then [] else [Trim(parts[0])] + TrimAll(parts[1..])
  }

  /** `.filter(Boolean)` on strings: the non-empty ones, in order. */
  function NonEmpty(xs: seq<string>): (kept: seq<string>)
    ensures |kept| <= |xs|
    ensures forall s :: s in kept <==> s in xs && s != []
  {
    if xs == [] then []
    else if xs[0] == [] then NonEmpty(xs[1..])
    else [xs[0]] + NonEmpty(xs[1..])
  }

  /** The origin list built from the `CORS_ORIGIN` setting (`undefined` reads as ""):
      every origin is non-empty and has no blank at either end. */
  function ParseOrigins(setting: Option<string>): (origins: seq<string>)
    ensures forall o :: o in origins ==> o != [] && Trimmed(o)
  {
    NonEmpty(TrimAll(Split(StringOr(setting, ""), ',')))
  }

  /** No parsed origin contains the separator. */
  lemma ParsedOriginsHaveNoComma(setting: Option<string>)
    ensures forall o :: o in ParseOrigins(setting) ==> ',' !in o
  {
    var parts := Split(StringOr(setting, ""), ',');
    var trimmed := TrimAll(parts);
    forall o | o in ParseOrigins(setting) ensures ',' !in o {
      var i :| 0 <= i < |trimmed| && trimmed[i] == o;
      TrimKeepsChars(parts[i]);
    }
  }

  /** The origin callback: allowed when the origin is falsy, the list is empty, or the
      origin is listed. A request is refused exactly when it names a non-empty origin
      that a non-empty list does not contain. */
  predicate OriginAllowed(origin: Option<string>, origins: seq<string>)
    ensures !OriginAllowed(origin, origins) <==>
              origin.Some? && origin.value != [] && origins != [] && origin.value !in origins
  {
    !TruthyString(origin) || |origins| == 0 || origin.value in origins
  }

  /** When every piece trims to nothing, no origin is configured. */
  lemma {:induction false} AllBlankPiecesGiveNoOrigins(parts: seq<string>)
    requires forall j :: 0 <= j < |parts| ==> Trim(parts[j]) == []
    ensures NonEmpty(TrimAll(parts)) == []
  {
    if parts != [] {
      var trimmed := TrimAll(parts);
      assert trimmed[1..] == TrimAll(parts[1..]);
      AllBlankPiecesGiveNoOrigins(parts[1..]);
    }
  }

  /** With `CORS_ORIGIN` unset, empty, or only commas and blanks, every origin passes. */
  lemma UnconfiguredAllowsAll(setting: Option<string>, origin: Option<string>)
    requires forall j :: 0 <= j < |Split(StringOr(setting, ""), ',')| ==>
               Trim(Split(StringOr(setting, ""), ',')[j]) == []
    ensures ParseOrigins(setting) == []
    ensures OriginAllowed(origin, ParseOrigins(setting))
  {
    AllBlankPiecesGiveNoOrigins(Split(StringOr(setting, ""), ','));
  }

  /** A setting written as comma-separated entries, each possibly padded with blanks,
      allows exactly the trimmed non-empty entries: a request origin is allowed
      precisely when it is empty or is the trim of an entry. */
  lemma ConfiguredOrigins(entries: seq<string>, origin: string)
    requires |entries| >= 1
    requires forall i :: 0 <= i < |entries| ==> ',' !in entries[i]
    requires exists i :: 0 <= i < |entries| && Trim(entries[i]) != []
    ensures OriginAllowed(Some(origin), ParseOrigins(Some(Join(entries, ','))))
              == (origin == [] || origin in TrimAll(entries))
  {
    var setting := Join(entries, ',');
    SplitJoin(entries, ',');
    assert StringOr(Some(setting), "") == setting;
    var trimmed := TrimAll(entries);
    var origins := NonEmpty(trimmed);
    assert ParseOrigins(Some(setting)) == origins;
    var k :| 0 <= k < |entries| && Trim(entries[k]) != [];
    assert trimmed[k] in trimmed;
  }
}
