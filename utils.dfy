/** pyptly.utils: the publish-prefix sanitiser and the response wrapper. */
module Utils {
  import opened Values

  // ---------------------------------------------------------------------
  // prefix_sanitized: three regular-expression substitutions, in order.
  // ---------------------------------------------------------------------

  /** Whether the whole string matches `^\.$`. Without the MULTILINE flag
      `^` matches only at the start and `$` at the end or just before a
      final newline, so exactly "." and ".\n" match. */
  predicate IsLoneDot(s: string)
  {
    s == "." || s == ".\n"
  }

  /** First substitution: `^\.$` becomes ":.", leaving a final newline in place. */
  function ReplaceLoneDot(s: string): (r: string)
    ensures IsLoneDot(s) ==> r == ":." + s[1..]
    ensures !IsLoneDot(s) ==> r == s
    ensures '_' !in r <==> '_' !in s
    ensures '/' !in r <==> '/' !in s
  {
    if IsLoneDot(s) then ":." + s[1..] else s
  }

  /** Position `i` holds an underscore matched by `(?<!_)_(?!_)`: no
      underscore right before it and none right after it. */
  predicate IsLone(s: string, i: int)
    requires 0 <= i < |s|
  {
    s[i] == '_' && (i == 0 || s[i - 1] != '_') && (i == |s| - 1 || s[i + 1] != '_')
  }

  /** What the second substitution puts in place of position `i`. */
  function DoubledAt(s: string, i: int): string
    requires 0 <= i < |s|
  {
    if IsLone(s, i) then "__" else [s[i]]
  }

  /** Second substitution applied to `s[i..]`; the lookarounds of every
      position look at the unmodified input `s`, as `re.sub` does. */
  function DoubleLoneFrom(s: string, i: nat): string
    requires i <= |s|
    decreases |s| - i
  {
    if i == |s| then "" else DoubledAt(s, i) + DoubleLoneFrom(s, i + 1)
  }

  /** Second substitution: every lone underscore becomes two. It agrees
      with the left-to-right scanner below, and an input without
      underscores passes through unchanged. */
  function DoubleLone(s: string): (r: string)
    ensures r == ScanDouble(false, s)
    ensures '_' !in s ==> r == s
  {
    DoubleLoneFromIsScan(s, 0);
    assert s[0..] == s;
    assert '_' !in s ==> DoubleLoneFrom(s, 0) == s by {
      if '_' !in s { DoubleLoneFromNoUnderscore(s, 0); }
    }
    DoubleLoneFrom(s, 0)
  }

  /** Third substitution: every `/` becomes `_`, everything else is kept. */
  function Flatten(s: string): (r: string)
    ensures |r| == |s|
    ensures forall i :: 0 <= i < |s| ==> r[i] == if s[i] == '/' then '_' else s[i]
    ensures '/' !in r
  {
    if s == "" then "" else [if s[0] == '/' then '_' else s[0]] + Flatten(s[1..])
  }

  /** prefix_sanitized: the three substitutions in source order. */
  function PrefixSanitized(prefix: string): (r: string)
    ensures '/' !in r
  {
    Flatten(DoubleLone(ReplaceLoneDot(prefix)))
  }

  // ---------------------------------------------------------------------
  // A one-pass reference definition of the sanitiser.
  // ---------------------------------------------------------------------

  /** What the input character at `i` turns into, judged on the input
      alone: a slash becomes one underscore, a lone underscore two
      underscores, and anything else itself. */
  function Token(s: string, i: int): string
    requires 0 <= i < |s|
  {
    if s[i] == '/' then "_" else if IsLone(s, i) then "__" else [s[i]]
  }

  function EncodeFrom(s: string, i: nat): string
    requires i <= |s|
    decreases |s| - i
  {
    if i == |s| then "" else Token(s, i) + EncodeFrom(s, i + 1)
  }

  /** Number of lone underscores in `s[i..]`. */
  function LoneCountFrom(s: string, i: nat): nat
    requires i <= |s|
    decreases |s| - i
  {
    if i == |s| then 0 else (if IsLone(s, i) then 1 else 0) + LoneCountFrom(s, i + 1)
  }

  function LoneCount(s: string): nat
  {
    LoneCountFrom(s, 0)
  }

  /** The characters of `s` other than `_` and `/`, in order. */
  function Strip(s: string): (r: string)
    ensures |r| <= |s|
    ensures '_' !in r && '/' !in r
  {
    if s == "" then ""
    else (if s[0] == '_' || s[0] == '/' then "" else [s[0]]) + Strip(s[1..])
  }

  lemma FlattenAppend(a: string, b: string)
    ensures Flatten(a + b) == Flatten(a) + Flatten(b)
  {
    var l, r := Flatten(a + b), Flatten(a) + Flatten(b);
    assert |l| == |r|;
    forall i | 0 <= i < |l| ensures l[i] == r[i] {
      if i < |a| { assert (a + b)[i] == a[i]; } else { assert (a + b)[i] == b[i - |a|]; }
    }
  }

  lemma {:induction false} StripAppend(a: string, b: string)
    ensures Strip(a + b) == Strip(a) + Strip(b)
    decreases |a|
  {
    if a != "" {
      assert (a + b)[1..] == a[1..] + b;
      StripAppend(a[1..], b);
    } else {
      assert a + b == b;
    }
  }

  lemma {:induction false} FlattenDoubleLoneFrom(s: string, i: nat)
    requires i <= |s|
    ensures Flatten(DoubleLoneFrom(s, i)) == EncodeFrom(s, i)
    decreases |s| - i
  {
    if i < |s| {
      FlattenAppend(DoubledAt(s, i), DoubleLoneFrom(s, i + 1));
      FlattenDoubleLoneFrom(s, i + 1);
    }
  }

  /** For every input other than the lone-dot case, the sanitiser is the
      one-pass encoding: lookarounds see the original underscores, so a
      slash next to a lone underscore never shields it from doubling. */
  lemma SanitizedIsEncoding(s: string)
    requires !IsLoneDot(s)
    ensures PrefixSanitized(s) == EncodeFrom(s, 0)
  {
    FlattenDoubleLoneFrom(s, 0);
  }

  lemma {:induction false} EncodeFromLength(s: string, i: nat)
    requires i <= |s|
    ensures |EncodeFrom(s, i)| == |s| - i + LoneCountFrom(s, i)
    decreases |s| - i
  {
    if i < |s| { EncodeFromLength(s, i + 1); }
  }

  /** Outside the lone-dot case the output grows by exactly one character
      per lone underscore of the input. */
  lemma SanitizedLength(s: string)
    requires !IsLoneDot(s)
    ensures |PrefixSanitized(s)| == |s| + LoneCount(s)
  {
    SanitizedIsEncoding(s);
    EncodeFromLength(s, 0);
  }

  /** A non-empty prefix never sanitises to the empty string. */
  lemma SanitizedNonEmpty(s: string)
    requires s != ""
    ensures PrefixSanitized(s) != ""
  {
    if IsLoneDot(s) {
      SanitizedPlainUnchanged(s);
    } else {
      SanitizedLength(s);
    }
  }

  lemma {:induction false} EncodeFromStrip(s: string, i: nat)
    requires i <= |s|
    ensures Strip(EncodeFrom(s, i)) == Strip(s[i..])
    decreases |s| - i
  {
    if i < |s| {
      StripAppend(Token(s, i), EncodeFrom(s, i + 1));
      EncodeFromStrip(s, i + 1);
      assert s[i..] == [s[i]] + s[i + 1..];
      StripAppend([s[i]], s[i + 1..]);
    }
  }

  /** Outside the lone-dot case every character other than `_` and `/` is
      kept, unchanged and in order, and no other character is added. */
  lemma SanitizedKeepsOtherCharacters(s: string)
    requires !IsLoneDot(s)
    ensures Strip(PrefixSanitized(s)) == Strip(s)
  {
    SanitizedIsEncoding(s);
    EncodeFromStrip(s, 0);
    assert s[0..] == s;
  }

  /** An input without `_` or `/` comes back unchanged, except "." (and
      ".\n"), which gain the leading colon. */
  lemma SanitizedPlainUnchanged(s: string)
    requires '_' !in s && '/' !in s
    ensures !IsLoneDot(s) ==> PrefixSanitized(s) == s
    ensures IsLoneDot(s) ==> PrefixSanitized(s) == ":" + s
  {
    if !IsLoneDot(s) {
      SanitizedIsEncoding(s);
      EncodeFromPlain(s, 0);
    } else {
      NoUnderscoreNoLone(ReplaceLoneDot(s), 0);
    }
  }

  lemma {:induction false} EncodeFromPlain(s: string, i: nat)
    requires i <= |s|
    requires '_' !in s && '/' !in s
    ensures EncodeFrom(s, i) == s[i..]
    decreases |s| - i
  {
    if i < |s| {
      EncodeFromPlain(s, i + 1);
      assert s[i..] == [s[i]] + s[i + 1..];
    }
  }

  lemma {:induction false} DoubleLoneFromNoUnderscore(s: string, i: nat)
    requires i <= |s|
    requires '_' !in s
    ensures DoubleLoneFrom(s, i) == s[i..]
    decreases |s| - i
  {
    if i < |s| {
      DoubleLoneFromNoUnderscore(s, i + 1);
      assert s[i..] == [s[i]] + s[i + 1..];
    }
  }

  /** Without underscores only the first and third substitutions act. */
  lemma SanitizedWithoutUnderscore(s: string)
    requires '_' !in s
    ensures PrefixSanitized(s) == Flatten(ReplaceLoneDot(s))
  {
    DoubleLoneFromNoUnderscore(ReplaceLoneDot(s), 0);
    assert ReplaceLoneDot(s)[0..] == ReplaceLoneDot(s);
  }

  lemma {:induction false} NoUnderscoreNoLone(s: string, i: nat)
    requires i <= |s|
    requires '_' !in s && '/' !in s
    ensures Flatten(DoubleLoneFrom(s, i)) == s[i..]
    decreases |s| - i
  {
    FlattenDoubleLoneFrom(s, i);
    EncodeFromPlain(s, i);
  }

  // ---------------------------------------------------------------------
  // A left-to-right scanner for the second substitution, used to show
  // that sanitising twice changes nothing when there is no slash.
  // ---------------------------------------------------------------------

  /** The second substitution read left to right; `afterUnderscore` says
      whether the character before `s` is an underscore. */
  function ScanDouble(afterUnderscore: bool, s: string): (r: string)
    ensures s != "" ==> r != "" && (r[0] == '_' <==> s[0] == '_')
    decreases |s|
  {
    if s == "" then ""
    else if s[0] == '_' && !afterUnderscore && (|s| == 1 || s[1] != '_') then "__" + ScanDouble(true, s[1..])
    else [s[0]] + ScanDouble(s[0] == '_', s[1..])
  }

  /** The positional rewrite and the scanner agree. */
  lemma {:induction false} DoubleLoneFromIsScan(s: string, i: nat)
    requires i <= |s|
    ensures DoubleLoneFrom(s, i) == ScanDouble(i > 0 && s[i - 1] == '_', s[i..])
    decreases |s| - i
  {
    if i < |s| {
      DoubleLoneFromIsScan(s, i + 1);
      var t := s[i..];
      assert t[0] == s[i] && t[1..] == s[i + 1..];
      assert |t| > 1 ==> t[1] == s[i + 1];
    }
  }

  /** The scanner leaves its own output unchanged. */
  lemma {:induction false} ScanDoubleIdempotent(p: bool, s: string)
    ensures ScanDouble(p, ScanDouble(p, s)) == ScanDouble(p, s)
    decreases |s|
  {
    if s != "" {
      var rest := s[1..];
      if s[0] == '_' && !p && (|s| == 1 || s[1] != '_') {
        var x := ScanDouble(true, rest);
        ScanDoubleIdempotent(true, rest);
        ScanPastDoubled(x);
      } else {
        var x := ScanDouble(s[0] == '_', rest);
        ScanDoubleIdempotent(s[0] == '_', rest);
        ScanPastKept(p, s, x);
      }
    }
  }

  lemma ScanPastDoubled(x: string)
    ensures ScanDouble(false, "__" + x) == "__" + ScanDouble(true, x)
  {
    assert ("__" + x)[1..] == "_" + x;
    assert ("_" + x)[1..] == x;
  }

  lemma ScanPastKept(p: bool, s: string, x: string)
    requires s != ""
    requires !(s[0] == '_' && !p && (|s| == 1 || s[1] != '_'))
    requires x == ScanDouble(s[0] == '_', s[1..])
    ensures ScanDouble(p, [s[0]] + x) == [s[0]] + ScanDouble(s[0] == '_', x)
  {
    var t := [s[0]] + x;
    assert t[1..] == x;
    if s[0] == '_' && !p {
      assert |s| > 1 && s[1] == '_';
      assert x[0] == '_';
    }
  }

  /** The second substitution leaves its own output unchanged. */
  lemma DoubleLoneIdempotent(s: string)
    ensures DoubleLone(DoubleLone(s)) == DoubleLone(s)
  {
    ScanDoubleIdempotent(false, s);
  }

  lemma {:induction false} FlattenNoSlash(s: string)
    requires '/' !in s
    ensures Flatten(s) == s
  {
    var r := Flatten(s);
    assert forall i :: 0 <= i < |s| ==> r[i] == s[i];
  }

  lemma {:induction false} DoubleLoneFromNoSlash(s: string, i: nat)
    requires i <= |s|
    requires '/' !in s
    ensures '/' !in DoubleLoneFrom(s, i)
    decreases |s| - i
  {
    if i < |s| { DoubleLoneFromNoSlash(s, i + 1); }
  }

  /** Sanitising a slash-free prefix a second time changes nothing: its
      underscores already come in runs of two or more. (With a slash it
      does: "/" becomes "_" and then "__".) */
  lemma SanitizedIdempotentWithoutSlash(s: string)
    requires '/' !in s
    ensures PrefixSanitized(PrefixSanitized(s)) == PrefixSanitized(s)
  {
    var d := ReplaceLoneDot(s);
    DoubleLoneFromNoSlash(d, 0);
    FlattenNoSlash(DoubleLone(d));
    var once := DoubleLone(d);
    assert PrefixSanitized(s) == once;
    if IsLoneDot(s) {
      SanitizedPlainUnchanged(s);
      SanitizedPlainUnchanged(once);
    } else {
      assert d == s;
      if IsLoneDot(once) {
        // A doubled underscore would make the output longer than ".\n" or
        // start it with '_'; so the input was already a lone dot.
        DoubleLoneFromIsScan(s, 0);
        assert s[0..] == s;
        LoneDotPreimage(s);
        assert false;
      }
      DoubleLoneIdempotent(s);
      FlattenNoSlash(DoubleLone(once));
    }
  }

  /** Only a lone dot doubles to a lone dot. */
  lemma LoneDotPreimage(s: string)
    requires IsLoneDot(ScanDouble(false, s))
    ensures IsLoneDot(s)
  {
    var r := ScanDouble(false, s);
    assert s != "";
    assert s[0] != '_';
    assert r[1..] == ScanDouble(false, s[1..]);
    if |s| > 1 {
      assert s[1..][0] != '_';
      assert s[1..][1..] == s[2..];
      assert ScanDouble(false, s[1..]) == [s[1]] + ScanDouble(false, s[2..]);
    }
  }

  /** The pairs of the repository's test_prefix (tests/test_utils.py),
      one lemma per pair. Only the whole-string "." gains a colon. */
  lemma LoneDotExample()
    ensures PrefixSanitized(".") == ":."
  {
  }

  lemma TrailingDotExample()
    ensures PrefixSanitized("a.") == "a."
  {
  }

  lemma InnerDotExample()
    ensures PrefixSanitized("a.a") == "a.a"
  {
  }

  lemma LeadingDotExample()
    ensures PrefixSanitized(".a") == ".a"
  {
  }

  lemma ColonDotExample()
    ensures PrefixSanitized(":.") == ":."
  {
  }

  lemma DotDigitExample()
    ensures PrefixSanitized(".1") == ".1"
  {
  }

  lemma TwoDotsExample()
    ensures PrefixSanitized("..") == ".."
  {
  }

  lemma OneUnderscoreExample()
    ensures PrefixSanitized("_") == "__"
  {
  }

  lemma TrailingUnderscoreExample()
    ensures PrefixSanitized("a_") == "a__"
  {
  }

  lemma LeadingUnderscoreExample()
    ensures PrefixSanitized("_a") == "__a"
  {
  }

  lemma UnderscorePairExample()
    ensures PrefixSanitized("__") == "__"
  {
  }

  lemma PairBeforeDotExample()
    ensures PrefixSanitized("__.") == "__."
  {
  }

  lemma UnderscoresAroundExample()
    ensures PrefixSanitized("_a_") == "__a__"
  {
  }

  lemma LeadingPairExample()
    ensures PrefixSanitized("__a") == "__a"
  {
  }

  lemma TrailingPairExample()
    ensures PrefixSanitized("a__") == "a__"
  {
  }

  lemma UnderscoresAroundDotExample()
    ensures PrefixSanitized("_._") == "__.__"
  {
  }

  lemma OneSlashExample()
    ensures PrefixSanitized("/") == "_"
  {
  }

  lemma TrailingSlashExample()
    ensures PrefixSanitized("a/") == "a_"
  {
  }

  lemma LeadingSlashExample()
    ensures PrefixSanitized("/a") == "_a"
  {
  }

  lemma SlashUnderscoreExample()
    ensures PrefixSanitized("/_") == "___"
  {
  }

  lemma UnderscoreSlashExample()
    ensures PrefixSanitized("_/") == "___"
  {
  }

  lemma SlashDashExample()
    ensures PrefixSanitized("/-") == "_-"
  {
  }

  lemma DashSlashExample()
    ensures PrefixSanitized("-/") == "-_"
  {
  }

  lemma DotSlashDotExample()
    ensures PrefixSanitized("./.") == "._."
  {
  }

  lemma TwoSlashesExample()
    ensures PrefixSanitized("//") == "__"
  {
  }

  lemma TwoSlashesUnderscoreExample()
    ensures PrefixSanitized("//_") == "____"
  {
  }

  // ---------------------------------------------------------------------
  // response: the parsed body, or {'error': err} when parsing fails.
  // ---------------------------------------------------------------------

  /** `response(request)`: `parsed` is what `request.json()` did, either a
      decoded value or the message of the ValueError it raised. */
  function Response(parsed: Result<Value, string>): (msg: Value)
    ensures parsed.Success? ==> msg == parsed.value
    ensures parsed.Failure? ==> msg.Obj? && msg.fields.Keys == {"error"}
                                && msg.fields["error"] == Exception(parsed.error)
  {
    match parsed
    case Success(v) => v
    case Failure(err) => Obj(map["error" := Exception(err)])
  }

  /** The shape `response` gives a parse failure. */
  predicate IsParseFailure(msg: Value)
  {
    msg.Obj? && "error" in msg.fields && msg.fields["error"].Exception?
  }

  /** A caller can tell the two outcomes apart: for a body the parser
      accepted (JSON, so no exception object inside), the message is never
      failure-shaped, and after a failure the error is recoverable. */
  lemma ResponseDistinguishesOutcomes(parsed: Result<Value, string>)
    requires parsed.Success? ==> IsJson(parsed.value)
    ensures IsParseFailure(Response(parsed)) <==> parsed.Failure?
    ensures parsed.Failure? ==> Response(parsed).fields["error"].message == parsed.error
  {
    if parsed.Success? {
      var v := parsed.value;
      if v.Obj? && "error" in v.fields {
        assert IsJson(v.fields["error"]);
      }
    }
  }
}
