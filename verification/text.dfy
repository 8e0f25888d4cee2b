/** String operations of the JavaScript standard library that the handlers
    use, on strings as sequences of characters. */
module Text {
  import Js

  predicate StartsWith(s: string, prefix: string) {
    |prefix| <= |s| && s[..|prefix|] == prefix
  }

  predicate EndsWith(s: string, suffix: string) {
    |suffix| <= |s| && s[|s| - |suffix|..] == suffix
  }

  /** The characters `String.prototype.trim` removes: the WhiteSpace and
      LineTerminator code points of ECMA-262 section 12.2 and 12.3, including
      every code point of Unicode category Zs. */
  predicate IsSpace(c: char) {
    || c == '\t' || c == '\n' || c == '\U{B}' || c == '\U{C}' || c == '\r'
    || c == ' ' || c == '\U{A0}' || c == '\U{1680}'
    || ('\U{2000}' <= c <= '\U{200A}')
    || c == '\U{2028}' || c == '\U{2029}' || c == '\U{202F}' || c == '\U{205F}'
    || c == '\U{3000}' || c == '\U{FEFF}'
  }

  predicate AllSpace(s: string) {
    forall i :: 0 <= i < |s| ==> IsSpace(s[i])
  }

  /** `trimStart`: drops the leading run of spaces. */
  function TrimStart(s: string): (r: string)
    ensures |r| <= |s| && r == s[|s| - |r|..]
    ensures forall i :: 0 <= i < |s| - |r| ==> IsSpace(s[i])
    ensures r != [] ==> !IsSpace(r[0])
  {
    if s != [] && IsSpace(s[0]) then TrimStart(s[1..]) else s
  }

  /** `trimEnd`: drops the trailing run of spaces. */
  function TrimEnd(s: string): (r: string)
    ensures |r| <= |s| && r == s[..|r|]
    ensures AllSpace(s[|r|..])
    ensures r != [] ==> !IsSpace(r[|r| - 1])
  {
    if s != [] && IsSpace(s[|s| - 1]) then TrimEnd(s[..|s| - 1]) else s
  }

  /** `String.prototype.trim`. */
  function Trim(s: string): (r: string)
    ensures r != [] ==> !IsSpace(r[0]) && !IsSpace(r[|r| - 1])
  {
    TrimEnd(TrimStart(s))
  }

  /** A string trims to the empty string exactly when it consists of spaces
      only; this is the "blank input" test of every form handler. */
  lemma TrimEmptyIffBlank(s: string)
    ensures Trim(s) == [] <==> AllSpace(s)
  {
    var t := TrimStart(s);
    var k := |s| - |t|;
    if Trim(s) == [] {
      assert AllSpace(t[0..]);
      assert t == [];
    } else {
      var r := Trim(s);
      assert t[..|r|] == r;
      assert !IsSpace(t[0]);
      assert s[k] == t[0];
    }
  }

  /** Trimming twice trims no more than trimming once: a trimmed string
      starts and ends with a non-space character. */
  lemma TrimIdempotent(s: string)
    ensures Trim(Trim(s)) == Trim(s)
  {
    var t := Trim(s);
    if t != [] {
      assert TrimStart(t) == t;
      assert TrimEnd(t) == t;
    }
  }

  /** `pat` occurs in `s` at index `j`. */
  predicate OccursAt(s: string, pat: string, j: nat) {
    j + |pat| <= |s| && s[j..j + |pat|] == pat
  }

  /** `s.startsWith('/') ? s.slice(1) : s`, also `s.replace(/^\//, '')`. */
  function DropLeadingSlash(s: string): (r: string)
    ensures StartsWith(s, "/") ==> s == "/" + r
    ensures !StartsWith(s, "/") ==> r == s
  {
    if StartsWith(s, "/") then s[1..] else s
  }

  /** `s.endsWith('/') ? s.slice(0, -1) : s`, also `s.replace(/\/$/, '')`. */
  function DropTrailingSlash(s: string): (r: string)
    ensures EndsWith(s, "/") ==> s == r + "/"
    ensures !EndsWith(s, "/") ==> r == s
  {
    if EndsWith(s, "/") then s[..|s| - 1] else s
  }

  /** The first index at or after `from` where `pat` occurs in `s`. */
  function IndexFrom(s: string, pat: string, from: nat): (r: Js.Option<nat>)
    requires from <= |s|
    ensures r.Some? ==> from <= r.value && OccursAt(s, pat, r.value)
    ensures r.Some? ==> forall j: nat :: from <= j < r.value ==> !OccursAt(s, pat, j)
    ensures r.None? ==> forall j: nat :: from <= j ==> !OccursAt(s, pat, j)
    decreases |s| - from
  {
    if from + |pat| > |s| then Js.None
    else if s[from..from + |pat|] == pat then Js.Some(from)
    else IndexFrom(s, pat, from + 1)
  }

  /** `String.prototype.indexOf`. */
  function IndexOf(s: string, pat: string): Js.Option<nat> {
    IndexFrom(s, pat, 0)
  }

  /** The replacement text for one match (GetSubstitution, ECMA-262 section
      22.1.3.19.1, for a string pattern, which has no capture groups):
      `$$`, `$&`, `` $` `` and `$'` are expanded, any other `$` is literal. */
  function Substitution(rep: string, matched: string, before: string, after: string): string
  {
    if |rep| >= 2 && rep[0] == '$' && rep[1] == '$' then
      "$" + Substitution(rep[2..], matched, before, after)
    else if |rep| >= 2 && rep[0] == '$' && rep[1] == '&' then
      matched + Substitution(rep[2..], matched, before, after)
    else if |rep| >= 2 && rep[0] == '$' && rep[1] == '`' then
      before + Substitution(rep[2..], matched, before, after)
    else if |rep| >= 2 && rep[0] == '$' && rep[1] == '\'' then
      after + Substitution(rep[2..], matched, before, after)
    else if rep == [] then []
    else [rep[0]] + Substitution(rep[1..], matched, before, after)
  }

  /** A replacement text without `$` is inserted literally. */
  lemma {:induction false} SubstitutionLiteral(rep: string, matched: string, before: string, after: string)
    requires '$' !in rep
    ensures Substitution(rep, matched, before, after) == rep
  {
    if rep != [] {
      assert rep[0] != '$';
      assert '$' !in rep[1..] by {
        forall i | 0 <= i < |rep[1..]| ensures rep[1..][i] != '$' {
          assert rep[1..][i] == rep[i + 1];
        }
      }
      SubstitutionLiteral(rep[1..], matched, before, after);
      assert [rep[0]] + rep[1..] == rep;
    }
  }

  /** `s.replace(pat, rep)` with a string pattern: only the first occurrence
      is replaced. */
  function ReplaceFirst(s: string, pat: string, rep: string): string {
    match IndexOf(s, pat)
    case None => s
    case Some(k) =>
      s[..k] + Substitution(rep, pat, s[..k], s[k + |pat|..]) + s[k + |pat|..]
  }

  /** A string that begins with the pattern has that first occurrence
      replaced. */
  lemma ReplaceAtStart(s: string, pat: string, rep: string)
    requires StartsWith(s, pat)
    ensures ReplaceFirst(s, pat, rep) == Substitution(rep, pat, [], s[|pat|..]) + s[|pat|..]
  {
    assert IndexOf(s, pat) == Js.Some(0) by {
      assert s[0..0 + |pat|] == pat;
    }
    var after := s[|pat|..];
    var sub := Substitution(rep, pat, [], after);
    assert ReplaceFirst(s, pat, rep) == s[..0] + sub + after by {
      assert s[..0] == [] && s[0 + |pat|..] == after;
    }
    assert s[..0] + sub + after == sub + after;
  }

  function DigitChar(d: nat): (c: char)
    requires d < 10
    ensures '0' <= c <= '9'
  {
    (48 + d) as char
  }

  /** `String(n)` for a non-negative integer. */
  function NatToString(n: nat): (r: string)
    ensures r != []
    ensures forall i :: 0 <= i < |r| ==> '0' <= r[i] <= '9'
    ensures n >= 10 ==> |r| >= 2
  {
    if n < 10 then [DigitChar(n)]
    else NatToString(n / 10) + [DigitChar(n % 10)]
  }

  /** Distinct numbers print differently. */
  lemma {:induction false} NatToStringInjective(a: nat, b: nat)
    requires NatToString(a) == NatToString(b)
    ensures a == b
  {
    if a >= 10 && b >= 10 {
      var sa, sb := NatToString(a), NatToString(b);
      assert sa[|sa| - 1] == sb[|sb| - 1];
      assert a % 10 == b % 10;
      assert sa[..|sa| - 1] == NatToString(a / 10);
      assert sb[..|sb| - 1] == NatToString(b / 10);
      NatToStringInjective(a / 10, b / 10);
    }
  }

  /** `String(n)` for an integer. */
  function IntToString(n: int): (r: string)
    ensures r != []
    ensures n < 0 <==> r[0] == '-'
  {
    if n < 0 then "-" + NatToString(-n) else NatToString(n)
  }

  /** Distinct integers print differently, so `String(id)` is a faithful
      key for integer ids. */
  lemma IntToStringInjective(a: int, b: int)
    requires IntToString(a) == IntToString(b)
    ensures a == b
  {
    if a < 0 {
      assert NatToString(-a) == IntToString(a)[1..];
      assert NatToString(-b) == IntToString(b)[1..];
      NatToStringInjective(-a, -b);
    } else {
      NatToStringInjective(a, b);
    }
  }
}
