/** `iso`, the never-raising timestamp display conversion (alert_bot/app.py:54-64). */
module Timestamps {
  import opened Wrappers
  import Text

  /** What `iso` may be handed: `None`, a string, a `datetime` (given by its
      `isoformat()` rendering), an integer, or any other value (given by its
      `str()` rendering). */
  datatype IsoArg =
    | NoneArg
    | StrArg(s: string)
    | DateTimeArg(isoformat: string)
    | IntArg(i: int)
    | OtherArg(str: string)

  /** `datetime.fromisoformat(x).isoformat()` as a partial function: `None`
      where `fromisoformat` raises. Its internals are not modelled. */
  type IsoParser = string -> Option<string>

  /** `s.replace("Z", "+00:00")`: every `Z` becomes a UTC offset. */
  function ReplaceZ(s: string): (r: string)
    ensures forall k :: 0 <= k < |r| ==> r[k] != 'Z'
    ensures 'Z' !in s ==> r == s
    ensures |r| >= |s|
  {
    if s == [] then []
    else (if s[0] == 'Z' then "+00:00" else [s[0]]) + ReplaceZ(s[1..])
  }

  /** `replace` works character by character: replacing in a concatenation
      is concatenating the replacements. */
  lemma {:induction false} ReplaceZConcat(a: string, b: string)
    ensures ReplaceZ(a + b) == ReplaceZ(a) + ReplaceZ(b)
  {
    if a == [] {
      assert a + b == b;
    } else {
      var c, rest := a[0], a[1..];
      assert a == [c] + rest;
      assert a + b == [c] + (rest + b);
      calc {
        ReplaceZ(a + b);
        { ReplaceZCons(c, rest + b); }
        ReplaceZ([c]) + ReplaceZ(rest + b);
        { ReplaceZConcat(rest, b); }
        ReplaceZ([c]) + (ReplaceZ(rest) + ReplaceZ(b));
        (ReplaceZ([c]) + ReplaceZ(rest)) + ReplaceZ(b);
        { ReplaceZCons(c, rest); }
        ReplaceZ(a) + ReplaceZ(b);
      }
    }
  }

  /** The first step of the replacement. */
  lemma ReplaceZCons(c: char, s: string)
    ensures ReplaceZ([c] + s) == ReplaceZ([c]) + ReplaceZ(s)
  {
    assert ([c] + s)[0] == c && ([c] + s)[1..] == s;
    assert [c][1..] == [];
  }

  /** A single `Z` becomes `+00:00`; every other character stays as it is. */
  lemma ReplaceZChar(c: char)
    ensures ReplaceZ([c]) == if c == 'Z' then "+00:00" else [c]
  {
    assert [c][1..] == [];
  }

  /** `iso(v)`. It never raises: a missing value shows as "-", a string that
      parses shows as the parsed value's rendering, a string that does not
      parse shows verbatim, anything else shows as its own rendering. */
  function Iso(v: IsoArg, fromIsoFormat: IsoParser): (r: string)
    ensures v == NoneArg || v == StrArg([]) ==> r == "-"
    ensures v.StrArg? && v.s != [] ==>
      (fromIsoFormat(ReplaceZ(v.s)).Some? ==> fromIsoFormat(ReplaceZ(v.s)) == Some(r))
      && (fromIsoFormat(ReplaceZ(v.s)).None? ==> r == v.s)
    ensures v.DateTimeArg? ==> r == v.isoformat
    ensures v.IntArg? ==> r == Text.IntToDecimal(v.i) && Text.ParseInt(r) == Some(v.i)
    ensures v.OtherArg? ==> r == v.str
  {
    match v
    case NoneArg => "-"
    case StrArg(s) =>
      if s == [] then "-"
      else (match fromIsoFormat(ReplaceZ(s))
            case Some(rendered) => rendered
            case None => s)
    case DateTimeArg(rendered) => rendered
    case IntArg(i) => Text.IntToDecimalRoundTrip(i); Text.IntToDecimal(i)
    case OtherArg(text) => text
  }

  /** The properties of the real `fromisoformat(...).isoformat()` that make
      `iso` stable: a rendering is never empty, never contains `Z` (offsets
      are written `+00:00`) and parses back to itself; and "-" does not parse. */
  ghost predicate StableParser(fromIsoFormat: IsoParser) {
    && fromIsoFormat("-").None?
    && forall x :: fromIsoFormat(x).Some? ==>
         && fromIsoFormat(x).value != []
         && 'Z' !in fromIsoFormat(x).value
         && fromIsoFormat(fromIsoFormat(x).value) == fromIsoFormat(x)
  }

  /** Displaying an already displayed timestamp changes nothing. */
  lemma IsoIdempotent(v: IsoArg, fromIsoFormat: IsoParser)
    requires StableParser(fromIsoFormat)
    requires v.NoneArg? || v.StrArg?
    ensures Iso(StrArg(Iso(v, fromIsoFormat)), fromIsoFormat) == Iso(v, fromIsoFormat)
  {
    assert ReplaceZ("-") == "-";
    if v.StrArg? && v.s != [] && fromIsoFormat(ReplaceZ(v.s)).Some? {
      var rendered := fromIsoFormat(ReplaceZ(v.s)).value;
      assert ReplaceZ(rendered) == rendered;
    }
  }
}
