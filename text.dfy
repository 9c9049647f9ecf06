/** Text primitives the rule-based classifier relies on: Python's substring test,
    ASCII lower-casing, `str.strip`, the order-number pattern and the anger words. */
module Text {
  import opened Wrappers

  /** `w` occurs in `s` starting at index `i`. */
  predicate OccursAt(s: string, w: string, i: nat)
  {
    i + |w| <= |s| && s[i..i + |w|] == w
  }

  /** Python's `w in s` on strings, as a left-to-right scan. */
  function Contains(s: string, w: string): bool
    decreases |s|
  {
    if |w| > |s| then false
    else if s[..|w|] == w then true
    else Contains(s[1..], w)
  }

  /** A successful scan names an index where `w` occurs. */
  lemma {:induction false} ContainsWitness(s: string, w: string) returns (i: nat)
    requires Contains(s, w)
    ensures OccursAt(s, w, i)
    decreases |s|
  {
    if s[..|w|] == w {
      i := 0;
    } else {
      var j := ContainsWitness(s[1..], w);
      assert s[1..][j..j + |w|] == s[j + 1..j + 1 + |w|];
      i := j + 1;
    }
  }

  /** Every occurrence is found by the scan. */
  lemma {:induction false} ContainsComplete(s: string, w: string, i: nat)
    requires OccursAt(s, w, i)
    ensures Contains(s, w)
    decreases i
  {
    if s[..|w|] != w {
      assert i != 0;
      assert s[1..][i - 1..i - 1 + |w|] == s[i..i + |w|];
      ContainsComplete(s[1..], w, i - 1);
    }
  }

  /** `Contains` is exactly "occurs at some index". */
  lemma ContainsIff(s: string, w: string)
    ensures Contains(s, w) <==> exists i: nat :: OccursAt(s, w, i)
  {
    if Contains(s, w) {
      var i := ContainsWitness(s, w);
    }
    forall i: nat | OccursAt(s, w, i) ensures Contains(s, w) {
      ContainsComplete(s, w, i);
    }
  }

  /** A word can only occur in a text that holds its first character. */
  lemma ContainsFirstChar(s: string, w: string)
    requires |w| > 0 && Contains(s, w)
    ensures w[0] in s
  {
    var i := ContainsWitness(s, w);
    assert s[i] == s[i..i + |w|][0];
  }

  /** ASCII lower-casing of one character; every other character is kept. */
  function LowerChar(c: char): char
  {
    if 'A' <= c <= 'Z' then (c as int + 32) as char else c
  }

  /** `str.lower()` restricted to ASCII letters. */
  function Lower(s: string): (r: string)
    ensures |r| == |s|
    ensures forall i :: 0 <= i < |s| ==> r[i] == LowerChar(s[i])
  {
    if s == [] then [] else [LowerChar(s[0])] + Lower(s[1..])
  }

  /** The characters for which Python's `str.isspace()` holds. */
  predicate IsSpace(c: char)
  {
    || '\t' <= c <= '\r'
    || '\U{1c}' <= c <= ' '
    || c == '\U{85}' || c == '\U{a0}' || c == '\U{1680}'
    || '\U{2000}' <= c <= '\U{200a}'
    || c == '\U{2028}' || c == '\U{2029}' || c == '\U{202f}' || c == '\U{205f}'
    || c == '\U{3000}'
  }

  /** Every character is white space (this includes the empty string). */
  predicate IsBlank(s: string)
  {
    forall i :: 0 <= i < |s| ==> IsSpace(s[i])
  }

  /** `s` with its leading white space removed. */
  function StripLeft(s: string): (r: string)
    ensures |r| <= |s| && r == s[|s| - |r|..]
    ensures IsBlank(s[..|s| - |r|])
    ensures r != [] ==> !IsSpace(r[0])
    decreases |s|
  {
    if |s| > 0 && IsSpace(s[0]) then
      var r := StripLeft(s[1..]);
      assert s[..|s| - |r|] == [s[0]] + s[1..][..|s| - 1 - |r|];
      r
    else s
  }

  /** `s` with its trailing white space removed. */
  function StripRight(s: string): (r: string)
    ensures |r| <= |s| && r == s[..|r|]
    ensures IsBlank(s[|r|..])
    ensures r != [] ==> !IsSpace(r[|r| - 1])
    decreases |s|
  {
    if |s| > 0 && IsSpace(s[|s| - 1]) then
      var r := StripRight(s[..|s| - 1]);
      assert s[|r|..] == s[..|s| - 1][|r|..] + [s[|s| - 1]];
      r
    else s
  }

  /** Python's `str.strip()` with no argument. */
  function Strip(s: string): string
  {
    StripRight(StripLeft(s))
  }

  /** `s.strip()` is falsy exactly when `s` is blank. */
  lemma StripEmptyIffBlank(s: string)
    ensures Strip(s) == [] <==> IsBlank(s)
  {
    var l := StripLeft(s);
    assert s == s[..|s| - |l|] + l;
    if Strip(s) == [] {
      assert IsBlank(l[|StripRight(l)|..]);
      assert l == l[0..];
    }
    if l != [] {
      assert s[|s| - |l|] == l[0];
    }
  }

  /** An ASCII decimal digit: the class `[0-9]`. */
  predicate IsDigit(c: char)
  {
    '0' <= c <= '9'
  }

  /** A value the order-number pattern can capture: three or more digits. */
  predicate IsOrderId(id: string)
  {
    |id| >= 3 && forall i :: 0 <= i < |id| ==> IsDigit(id[i])
  }

  /** The greedy `[^0-9]*` from index `j`: the first digit at or after `j`, or `|s|`. */
  function SkipNonDigits(s: string, j: nat): (k: nat)
    requires j <= |s|
    ensures j <= k <= |s|
    ensures forall p :: j <= p < k ==> !IsDigit(s[p])
    ensures k < |s| ==> IsDigit(s[k])
    decreases |s| - j
  {
    if j < |s| && !IsDigit(s[j]) then SkipNonDigits(s, j + 1) else j
  }

  /** The greedy `[0-9]*` from index `j`: the first non-digit at or after `j`, or `|s|`. */
  function DigitRunEnd(s: string, j: nat): (e: nat)
    requires j <= |s|
    ensures j <= e <= |s|
    ensures forall p :: j <= p < e ==> IsDigit(s[p])
    ensures e < |s| ==> !IsDigit(s[e])
    decreases |s| - j
  {
    if j < |s| && IsDigit(s[j]) then DigitRunEnd(s, j + 1) else j
  }

  /** Length of the keyword of `(?:订单|order)` (case-insensitive) at index `i`, or 0. */
  function KeywordAt(s: string, i: nat): (k: nat)
    ensures k == 0 || k == 2 || k == 5
  {
    if OccursAt(s, "订单", i) then 2
    else if i + 5 <= |s| && Lower(s[i..i + 5]) == "order" then 5
    else 0
  }

  /** `订单` is tried first; `order` matches when each of its five letters is
      there in lower or upper case. */
  lemma KeywordAtMatches(s: string, i: nat)
    ensures KeywordAt(s, i) == 2 <==> OccursAt(s, "订单", i)
    ensures KeywordAt(s, i) == 5 <==>
              && !OccursAt(s, "订单", i) && i + 5 <= |s|
              && forall p :: 0 <= p < 5 ==> s[i + p] == "order"[p] || s[i + p] == "ORDER"[p]
  {
  }

  /** The pattern `(?:订单|order)[^0-9]*([0-9]{3,})` anchored at index `i`:
      its captured group, if the pattern matches there. */
  function MatchAt(s: string, i: nat): (r: Option<string>)
    requires i <= |s|
    ensures r.Some? ==> IsOrderId(r.value)
    ensures r.Some? ==> exists j: nat :: i < j && OccursAt(s, r.value, j)
  {
    var k := KeywordAt(s, i);
    if k == 0 then None
    else
      var j := SkipNonDigits(s, i + k);
      var e := DigitRunEnd(s, j);
      if e - j >= 3 then
        var id := s[j..e];
        assert OccursAt(s, id, j);
        Some(id)
      else None
  }

  /** `re.search` of the order-number pattern from index `i`: the match at the
      leftmost index that has one. */
  function SearchFrom(s: string, i: nat): (r: Option<string>)
    requires i <= |s|
    ensures r.Some? ==> IsOrderId(r.value)
    decreases |s| - i
  {
    if i == |s| then None
    else
      match MatchAt(s, i)
      case Some(id) => Some(id)
      case None => SearchFrom(s, i + 1)
  }

  /** The order number a text mentions, as `_ORDER_ID_RE.search(text).group(1)`. */
  function ExtractOrderId(text: string): (r: Option<string>)
    ensures r.Some? ==> IsOrderId(r.value)
  {
    SearchFrom(text, 0)
  }

  /** One step of the search: a match here, or the search from the next index. */
  lemma SearchStep(s: string, i: nat)
    requires i < |s|
    ensures SearchFrom(s, i) == if MatchAt(s, i).Some? then MatchAt(s, i) else SearchFrom(s, i + 1)
  {
  }

  /** The search returns the match at the leftmost matching index. */
  lemma {:induction false} SearchFindsLeftmost(s: string, i: nat, p: nat)
    requires i <= p < |s| && MatchAt(s, p).Some?
    requires forall q :: i <= q < p ==> MatchAt(s, q).None?
    ensures SearchFrom(s, i) == MatchAt(s, p)
    decreases p - i
  {
    SearchStep(s, i);
    if i < p {
      assert MatchAt(s, i).None?;
      SearchFindsLeftmost(s, i + 1, p);
    }
  }

  /** The search fails only where the pattern matches at no index. */
  lemma {:induction false} SearchNoneIff(s: string, i: nat)
    requires i <= |s|
    ensures SearchFrom(s, i).None? <==> forall q :: i <= q < |s| ==> MatchAt(s, q).None?
    decreases |s| - i
  {
    if i < |s| {
      SearchStep(s, i);
      SearchNoneIff(s, i + 1);
      if MatchAt(s, i).None? {
        if SearchFrom(s, i).None? {
          forall q | i <= q < |s|
            ensures MatchAt(s, q).None?
          {
            if q != i {
              assert i + 1 <= q;
            }
          }
        } else {
          var q :| i + 1 <= q < |s| && MatchAt(s, q).Some?;
        }
      }
    }
  }

  /** The words whose presence marks a message as angry. */
  const AngryWords: seq<string> := ["生气", "愤怒", "垃圾", "投诉", "差评", "骗子", "要告你", "气死了"]

  /** Python's `any(w in text for w in _ANGRY_WORDS)`. */
  predicate IsAngry(text: string)
  {
    exists w :: w in AngryWords && Contains(text, w)
  }
}
