/**
 * Characters and strings as the JavaScript side of the system sees them: the `\s` and `\d`
 * classes of its regular expressions, `toLowerCase`, `trim`, `includes`, `replace`, `join`,
 * and the leftmost-match search that `String.prototype.match` performs.
 */
module Text {
  import opened Wrappers

  /** JavaScript truthiness of an optional string: present and not empty. */
  predicate Preenchido(s: Option<string>) {
    s.Some? && s.value != ""
  }

  /** JavaScript `\s`; `trim` and `parseFloat` skip exactly this set too. */
  predicate IsSpace(c: char) {
    c == ' ' || c == '\t' || c == '\n' || c == '\U{B}' || c == '\U{C}' || c == '\r'
    || c == '\U{A0}' || c == '\U{1680}' || ('\U{2000}' <= c <= '\U{200A}')
    || c == '\U{2028}' || c == '\U{2029}' || c == '\U{202F}' || c == '\U{205F}'
    || c == '\U{3000}' || c == '\U{FEFF}'
  }

  /** JavaScript `\d`: the ASCII digits only. */
  predicate IsDigit(c: char) {
    '0' <= c <= '9'
  }

  function DigitValue(c: char): nat {
    if IsDigit(c) then c as int - '0' as int else 0
  }

  predicate AllDigits(d: string) {
    forall i :: 0 <= i < |d| ==> IsDigit(d[i])
  }

  /** The number a run of decimal digits denotes, most significant digit first. */
  function DigitsValue(d: string): nat
    decreases |d|
  {
    if d == [] then 0 else DigitsValue(d[..|d| - 1]) * 10 + DigitValue(d[|d| - 1])
  }

  /**
   * JavaScript `toLowerCase` on one character: ASCII and Latin-1 capitals map to their small
   * letters; every other character is left as it is.
   */
  function LowerChar(c: char): char {
    if 'A' <= c <= 'Z' || ('\U{C0}' <= c <= '\U{DE}' && c != '\U{D7}') then (c as int + 32) as char else c
  }

  function Lower(s: string): string {
    seq(|s|, i requires 0 <= i < |s| => LowerChar(s[i]))
  }

  /** SQL `LOWER` as SQLite has it without ICU: only ASCII letters fold. */
  function LowerAsciiChar(c: char): char {
    if 'A' <= c <= 'Z' then (c as int + 32) as char else c
  }

  function LowerAscii(s: string): string {
    seq(|s|, i requires 0 <= i < |s| => LowerAsciiChar(s[i]))
  }

  /** The first index at or after `i` whose character is outside the class `p`, or `|s|`. */
  function RunEnd(s: string, i: nat, p: char -> bool): (e: nat)
    requires i <= |s|
    decreases |s| - i
    ensures i <= e <= |s|
    ensures forall k :: i <= k < e ==> p(s[k])
    ensures e == |s| || !p(s[e])
  {
    if i == |s| || !p(s[i]) then i else RunEnd(s, i + 1, p)
  }

  /** A run of `p` from `i` that stops at `e` ends at `e`. */
  lemma RunEndIs(s: string, i: nat, e: nat, p: char -> bool)
    requires i <= e <= |s|
    requires forall k :: i <= k < e ==> p(s[k])
    requires e == |s| || !p(s[e])
    ensures RunEnd(s, i, p) == e
  {
  }

  function SpaceRunEnd(s: string, i: nat): nat
    requires i <= |s|
  {
    RunEnd(s, i, IsSpace)
  }

  function DigitRunEnd(s: string, i: nat): nat
    requires i <= |s|
  {
    RunEnd(s, i, IsDigit)
  }

  /** `String.prototype.trim`: leading and trailing `\s` removed. */
  function TrimEnd(s: string): (r: string)
    decreases |s|
    ensures r <= s
    ensures r == [] || !IsSpace(r[|r| - 1])
    ensures forall k :: |r| <= k < |s| ==> IsSpace(s[k])
  {
    if s != [] && IsSpace(s[|s| - 1]) then TrimEnd(s[..|s| - 1]) else s
  }

  function Trim(s: string): string {
    TrimEnd(s[SpaceRunEnd(s, 0)..])
  }

  /** The literal `w` occurs in `s` at index `i`. */
  predicate StartsAt(s: string, i: int, w: string) {
    0 <= i && i + |w| <= |s| && s[i..i + |w|] == w
  }

  predicate StartsWith(s: string, w: string) {
    StartsAt(s, 0, w)
  }

  predicate EndsWith(s: string, w: string) {
    |w| <= |s| && s[|s| - |w|..] == w
  }

  /** `String.prototype.includes`. */
  predicate Contains(s: string, w: string) {
    exists i | 0 <= i <= |s| :: StartsAt(s, i, w)
  }

  /** The characters of `s` that satisfy `p`, in order: a global `replace` by "" of the others. */
  function KeepChars(s: string, p: char -> bool): (r: string)
    decreases |s|
    ensures |r| <= |s|
    ensures forall k :: 0 <= k < |r| ==> p(r[k])
  {
    if s == [] then [] else (if p(s[0]) then [s[0]] else []) + KeepChars(s[1..], p)
  }

  /** `s.replace(a, b)` with a one-character string pattern: only the first `a` is replaced. */
  function ReplaceFirst(s: string, a: char, b: char): string
    decreases |s|
  {
    if s == [] then [] else if s[0] == a then [b] + s[1..] else [s[0]] + ReplaceFirst(s[1..], a, b)
  }

  /** The class `[\d.,]`: the characters of a written price. */
  predicate CaractereNumerico(c: char) {
    IsDigit(c) || c == '.' || c == ','
  }

  /** Every character of `s` is in `[\d.,]`. */
  predicate TextoNumerico(s: string) {
    forall k :: 0 <= k < |s| ==> CaractereNumerico(s[k])
  }

  /** The class `[aãoõ]` that follows "milh" in a unit of millions. */
  predicate VogalMilhao(c: char) {
    c == 'a' || c == 'ã' || c == 'o' || c == 'õ'
  }

  predicate NaoPonto(c: char) {
    c != '.'
  }

  /** `replace(/\./g, "")`. */
  function SemPontos(s: string): string {
    KeepChars(s, NaoPonto)
  }

  /** `a` is `b` with some elements dropped and the others kept in their order. */
  ghost predicate Subsequencia<T>(a: seq<T>, b: seq<T>)
    decreases |b|
  {
    if a == [] then true
    else if b == [] then false
    else if a[0] == b[0] then Subsequencia(a[1..], b[1..])
    else Subsequencia(a, b[1..])
  }

  /** `Array.prototype.join(sep)`. */
  function Join(parts: seq<string>, sep: string): string
    decreases |parts|
  {
    if parts == [] then "" else if |parts| == 1 then parts[0] else parts[0] + sep + Join(parts[1..], sep)
  }

  /**
   * The leftmost index at or after `from` where the matcher `m` succeeds, with what it
   * captured there: how a regular expression without the `g` flag scans its subject.
   */
  function FindFirst<T>(s: string, from: nat, m: (string, nat) -> Option<T>): (r: Option<(nat, T)>)
    decreases |s| + 1 - from
    ensures r.Some? ==> from <= r.value.0 <= |s| && m(s, r.value.0) == Some(r.value.1)
    ensures forall j :: from <= j <= |s| && (r.None? || j < r.value.0) ==> m(s, j).None?
  {
    if from > |s| then None
    else match m(s, from)
      case Some(v) => Some((from, v))
      case None => FindFirst(s, from + 1, m)
  }

  /** A matcher that succeeds at `p` and nowhere in `[from, p)` is where the search stops. */
  lemma FindFirstEm<T>(s: string, from: nat, p: nat, m: (string, nat) -> Option<T>)
    requires from <= p <= |s| && m(s, p).Some?
    requires forall j :: from <= j < p ==> m(s, j).None?
    ensures FindFirst(s, from, m) == Some((p, m(s, p).value))
  {
  }

  lemma ContainsSplice(a: string, w: string, b: string)
    ensures Contains(a + w + b, w)
  {
    assert StartsAt(a + w + b, |a|, w);
  }

  /** No character of `s` is a decimal digit. */
  predicate SemDigitos(s: string) {
    forall k :: 0 <= k < |s| ==> !IsDigit(s[k])
  }

  /** Lower-casing twice is lower-casing once: no small letter is the image of a capital. */
  lemma LowerIdempotente(s: string)
    ensures Lower(Lower(s)) == Lower(s)
  {
    assert forall k :: 0 <= k < |s| ==> LowerChar(LowerChar(s[k])) == LowerChar(s[k]);
  }

  /** `toLowerCase` leaves a string without capitals as it is. */
  lemma LowerFixo(s: string)
    requires forall k :: 0 <= k < |s| ==> LowerChar(s[k]) == s[k]
    ensures Lower(s) == s
  {
  }

  /** `toLowerCase` never turns a character into a digit. */
  lemma LowerSemDigitos(s: string)
    requires SemDigitos(s)
    ensures SemDigitos(Lower(s))
  {
  }

  /** `trim` leaves a string that starts and ends with something other than `\s` as it is. */
  lemma TrimFixo(s: string)
    requires s != [] && !IsSpace(s[0]) && !IsSpace(s[|s| - 1])
    ensures Trim(s) == s
  {
    RunEndIs(s, 0, 0, IsSpace);
    assert s[0..] == s;
  }

  /** `trim` keeps a slice of the string. */
  lemma TrimSemDigitos(s: string)
    requires SemDigitos(s)
    ensures SemDigitos(Trim(s))
  {
    var t := s[SpaceRunEnd(s, 0)..];
    assert SemDigitos(t);
    var r := TrimEnd(t);
    assert forall k :: 0 <= k < |r| ==> r[k] == t[k];
  }

  /** Removing the characters outside `p` keeps a string whose characters all satisfy `p`. */
  lemma {:induction false} KeepCharsTudo(s: string, p: char -> bool)
    requires forall k :: 0 <= k < |s| ==> p(s[k])
    decreases |s|
    ensures KeepChars(s, p) == s
  {
    if s != [] {
      KeepCharsTudo(s[1..], p);
    }
  }

  /** Removing characters distributes over concatenation. */
  lemma {:induction false} KeepCharsConcat(a: string, b: string, p: char -> bool)
    decreases |a|
    ensures KeepChars(a + b, p) == KeepChars(a, p) + KeepChars(b, p)
  {
    if a != [] {
      KeepCharsConcat(a[1..], b, p);
      assert (a + b)[1..] == a[1..] + b;
    } else {
      assert a + b == b;
    }
  }

  /** Removing characters adds no digit. */
  /** A character the filter accepts survives it. */
  lemma {:induction false} KeepCharsMantem(s: string, p: char -> bool, k: nat)
    requires k < |s|
    decreases k
    ensures p(s[k]) ==> s[k] in KeepChars(s, p)
  {
    if k > 0 {
      KeepCharsMantem(s[1..], p, k - 1);
    }
  }

  /**
   * A string that ends with its own digits has all of them at the end: no digit comes before
   * a character that is not one.
   */
  lemma FimComSeusDigitos(c: string)
    ensures EndsWith(c, KeepChars(c, IsDigit)) ==>
      forall i, j :: 0 <= i < j < |c| && IsDigit(c[i]) ==> IsDigit(c[j])
  {
    var d := KeepChars(c, IsDigit);
    if EndsWith(c, d) {
      var p := |c| - |d|;
      assert c == c[..p] + c[p..];
      KeepCharsConcat(c[..p], c[p..], IsDigit);
      KeepCharsTudo(c[p..], IsDigit);
      assert KeepChars(c[..p], IsDigit) == [];
      forall k | 0 <= k < p ensures !IsDigit(c[k]) {
        KeepCharsMantem(c[..p], IsDigit, k);
      }
    }
  }

  lemma {:induction false} KeepCharsSemDigitos(s: string, p: char -> bool)
    requires SemDigitos(s)
    decreases |s|
    ensures SemDigitos(KeepChars(s, p))
  {
    if s != [] {
      KeepCharsSemDigitos(s[1..], p);
    }
  }

  /** Removing characters keeps every remaining character in a class the string was in. */
  lemma {:induction false} KeepCharsClasse(s: string, p: char -> bool, q: char -> bool)
    requires forall k :: 0 <= k < |s| ==> q(s[k])
    decreases |s|
    ensures forall k :: 0 <= k < |KeepChars(s, p)| ==> q(KeepChars(s, p)[k])
  {
    if s != [] {
      KeepCharsClasse(s[1..], p, q);
    }
  }

  /** Replacing a character by one of a class keeps a string within that class. */
  lemma {:induction false} ReplaceFirstClasse(s: string, a: char, b: char, q: char -> bool)
    requires q(b) && forall k :: 0 <= k < |s| ==> q(s[k])
    decreases |s|
    ensures forall k :: 0 <= k < |ReplaceFirst(s, a, b)| ==> q(ReplaceFirst(s, a, b)[k])
  {
    if s != [] && s[0] != a {
      ReplaceFirstClasse(s[1..], a, b, q);
    }
  }

  /** Replacing a character that does not occur changes nothing. */
  lemma {:induction false} ReplaceFirstAusente(s: string, a: char, b: char)
    requires forall k :: 0 <= k < |s| ==> s[k] != a
    decreases |s|
    ensures ReplaceFirst(s, a, b) == s
  {
    if s != [] {
      ReplaceFirstAusente(s[1..], a, b);
    }
  }

  /** Replacing a character by a non-digit adds no digit. */
  lemma {:induction false} ReplaceFirstSemDigitos(s: string, a: char, b: char)
    requires SemDigitos(s) && !IsDigit(b)
    decreases |s|
    ensures SemDigitos(ReplaceFirst(s, a, b))
  {
    if s != [] && s[0] != a {
      ReplaceFirstSemDigitos(s[1..], a, b);
    }
  }

  /** A part of a joined list that contains `w` puts `w` in the joined string. */
  lemma JoinContainsIn(parts: seq<string>, sep: string, x: string, w: string)
    requires x in parts && Contains(x, w)
    ensures Contains(Join(parts, sep), w)
  {
    var k :| 0 <= k < |parts| && parts[k] == x;
    JoinContains(parts, sep, k);
    ContainsTrans(Join(parts, sep), x, w);
  }

  /** An occurrence inside an occurrence is an occurrence. */
  lemma ContainsTrans(a: string, b: string, c: string)
    requires Contains(a, b) && Contains(b, c)
    ensures Contains(a, c)
  {
    var i :| 0 <= i <= |a| && StartsAt(a, i, b);
    var j :| 0 <= j <= |b| && StartsAt(b, j, c);
    forall t | 0 <= t < |c| ensures a[i + j + t] == c[t] {
      assert c[t] == b[j + t] == a[i + j + t];
    }
    assert a[i + j..i + j + |c|] == c;
    assert StartsAt(a, i + j, c);
  }

  /** Every part of a joined list occurs in the joined string. */
  /** Every part occurs in the join. */
  lemma JoinContemPartes(parts: seq<string>, sep: string)
    ensures forall k :: 0 <= k < |parts| ==> Contains(Join(parts, sep), parts[k])
  {
    forall k | 0 <= k < |parts| ensures Contains(Join(parts, sep), parts[k]) {
      JoinContains(parts, sep, k);
    }
  }

  lemma {:induction false} JoinContains(parts: seq<string>, sep: string, k: nat)
    requires k < |parts|
    ensures Contains(Join(parts, sep), parts[k])
  {
    if |parts| == 1 {
      assert StartsAt(Join(parts, sep), 0, parts[0]);
    } else if k == 0 {
      ContainsSplice("", parts[0], sep + Join(parts[1..], sep));
      assert parts[0] + sep + Join(parts[1..], sep) == "" + parts[0] + (sep + Join(parts[1..], sep));
    } else {
      JoinContains(parts[1..], sep, k - 1);
      var rest := Join(parts[1..], sep);
      assert parts[1..][k - 1] == parts[k];
      var i :| 0 <= i <= |rest| && StartsAt(rest, i, parts[k]);
      var pre := parts[0] + sep;
      var w := parts[k];
      assert Join(parts, sep) == pre + rest;
      assert 0 <= i && i + |w| <= |rest| && rest[i..i + |w|] == w;
      assert (pre + rest)[|pre| + i..|pre| + i + |w|] == rest[i..i + |w|];
      assert StartsAt(pre + rest, |pre| + i, w);
    }
  }

  /** A joined list of two or more parts starts with its first part followed by the separator. */
  lemma JoinHead(parts: seq<string>, sep: string)
    requires |parts| >= 2
    ensures StartsWith(Join(parts, sep), parts[0] + sep)
  {
    var j := Join(parts, sep);
    assert j == (parts[0] + sep) + Join(parts[1..], sep);
    assert j[0..|parts[0] + sep|] == parts[0] + sep;
  }
}
