/**
 * Hand-written scanners for the regular expressions the tools apply to file
 * names and paths. `\d` is read as an ASCII digit.
 *
 *   v1.3  UDIM_PATTERN  `(?:_)?(\d{4}())`   SIZE_PATTERN `(?:_)?(\d+[Kk])`
 *   v1.2  udimPattern   `_(\d{4})`          sizePattern  `_(\d+[Kk])`
 *   v1.3  path rewrite  `re.sub(r'\d{4}', '<UDIM>', path)`
 */
module Patterns {
  import opened Options

  predicate IsDigit(c: char) { '0' <= c <= '9' }

  predicate IsK(c: char) { c == 'K' || c == 'k' }

  /** Length of the run of digits at the start of `s`. */
  function LeadDigits(s: string): (n: nat)
    ensures n <= |s|
    ensures forall k :: 0 <= k < n ==> IsDigit(s[k])
    ensures n < |s| ==> !IsDigit(s[n])
  {
    if s != [] && IsDigit(s[0]) then 1 + LeadDigits(s[1..]) else 0
  }

  /** `n` digits stand at position `i` of `s`. */
  predicate DigitsAt(s: string, i: int, n: nat) {
    0 <= i && i + n <= |s| && forall k :: i <= k < i + n ==> IsDigit(s[k])
  }

  lemma {:induction false} LeadDigitsAtLeast(s: string, n: nat)
    ensures LeadDigits(s) >= n <==> DigitsAt(s, 0, n)
  {
    if n > 0 && s != [] && IsDigit(s[0]) {
      LeadDigitsAtLeast(s[1..], n - 1);
      if DigitsAt(s, 0, n) {
        assert DigitsAt(s[1..], 0, n - 1);
      }
      if DigitsAt(s[1..], 0, n - 1) {
        assert forall k :: 1 <= k < n ==> s[k] == s[1..][k - 1];
      }
    }
  }

  /** v1.3 UDIM test: `\d{4}` found anywhere (the optional `_` never matters). */
  predicate HasFourDigits(s: string)
    decreases |s|
  {
    LeadDigits(s) >= 4 || (s != [] && HasFourDigits(s[1..]))
  }

  /** v1.2 UDIM test: an underscore followed by four digits. */
  predicate HasUnderscoreFourDigits(s: string)
    decreases |s|
  {
    (s != [] && s[0] == '_' && LeadDigits(s[1..]) >= 4) || (s != [] && HasUnderscoreFourDigits(s[1..]))
  }

  /** The v1.3 scan finds four digits exactly when four digits stand somewhere. */
  lemma {:induction false} HasFourDigitsIff(s: string)
    ensures HasFourDigits(s) <==> exists i :: DigitsAt(s, i, 4)
    decreases |s|
  {
    LeadDigitsAtLeast(s, 4);
    if s != [] {
      HasFourDigitsIff(s[1..]);
      if HasFourDigits(s[1..]) {
        var i :| DigitsAt(s[1..], i, 4);
        assert DigitsAt(s, i + 1, 4);
      }
      if exists i :: DigitsAt(s, i, 4) {
        var i :| DigitsAt(s, i, 4);
        if i > 0 {
          assert DigitsAt(s[1..], i - 1, 4);
        }
      }
    }
  }

  /** Every name v1.2 tags as UDIM is tagged by v1.3 too. */
  lemma {:induction false} UnderscoreUdimIsUdim(s: string)
    requires HasUnderscoreFourDigits(s)
    ensures HasFourDigits(s)
    decreases |s|
  {
    if s[0] == '_' && LeadDigits(s[1..]) >= 4 {
      assert HasFourDigits(s[1..]);
    } else {
      UnderscoreUdimIsUdim(s[1..]);
    }
  }

  /** A name without an underscore never carries the v1.2 UDIM tag. */
  lemma {:induction false} NoUnderscoreNoUdim(s: string)
    requires '_' !in s
    ensures !HasUnderscoreFourDigits(s)
    decreases |s|
  {
    if s != [] {
      assert '_' !in s[1..] by {
        forall k | 0 <= k < |s[1..]| ensures s[1..][k] != '_' {
          assert s[1..][k] == s[k + 1];
        }
      }
      NoUnderscoreNoUdim(s[1..]);
    }
  }

  /** ... but not the other way round: v1.3 also tags digits with no underscore before them. */
  lemma UdimTagsDiffer()
    ensures HasFourDigits("tires1001.png") && !HasUnderscoreFourDigits("tires1001.png")
  {
    var s := "tires1001.png";
    assert DigitsAt(s, 5, 4);
    HasFourDigitsIff(s);
    NoUnderscoreNoUdim(s);
  }

  /**
   * v1.3 size tag: `group(1)` of the leftmost `(?:_)?(\d+[Kk])` match. A match
   * can only start inside a run of digits that is followed by K, so the group is
   * the first such run (taken whole) with its K.
   */
  function SizeTag13(s: string): Option<string>
    decreases |s|
  {
    if s == [] then None
    else if IsDigit(s[0]) then
      var n := LeadDigits(s);
      if n < |s| && IsK(s[n]) then Some(s[..n + 1]) else SizeTag13(s[n..])
    else SizeTag13(s[1..])
  }

  /** v1.2 size tag: `group(1)` of the leftmost `_(\d+[Kk])` match. */
  function SizeTag12(s: string): Option<string>
    decreases |s|
  {
    if s == [] then None
    else if UnderscoreSizeFront(s) then Some(s[1..2 + LeadDigits(s[1..])])
    else SizeTag12(s[1..])
  }

  /**
   * A `_\d+[Kk]` match starts at the front of `s`: an underscore, then a run of
   * digits that a K or k ends (a shorter run of digits would be followed by a digit).
   */
  predicate UnderscoreSizeFront(s: string) {
    s != [] && s[0] == '_' && LeadDigits(s[1..]) >= 1 && 1 + LeadDigits(s[1..]) < |s|
    && IsK(s[1 + LeadDigits(s[1..])])
  }

  /** A `_\d+[Kk]` match starts at position `i` of `s`. */
  predicate UnderscoreSizeAt(s: string, i: int) {
    0 <= i < |s| && UnderscoreSizeFront(s[i..])
  }

  /** A size tag: one or more digits and a final K or k. */
  predicate IsSizeTag(t: string) {
    |t| >= 2 && IsK(t[|t| - 1]) && forall k :: 0 <= k < |t| - 1 ==> IsDigit(t[k])
  }

  /** A digit directly followed by K or k stands at position `i`. */
  predicate DigitKAt(s: string, i: int) {
    0 <= i && i + 1 < |s| && IsDigit(s[i]) && IsK(s[i + 1])
  }

  /** `t` stands at position `i` of `s`. */
  predicate At(s: string, t: string, i: int) {
    0 <= i && i + |t| <= |s| && s[i..i + |t|] == t
  }

  lemma AtShift(s: string, n: nat, t: string, i: int)
    requires n <= |s| && At(s[n..], t, i)
    ensures At(s, t, n + i)
  {
    assert s[n + i..n + i + |t|] == s[n..][i..i + |t|];
  }

  /** `t` is the leftmost `\d+[Kk]` match of `s`, taken from the start of its run of digits. */
  predicate FirstSizeTagAt(s: string, t: string, i: int) {
    At(s, t, i) && (i == 0 || !IsDigit(s[i - 1])) && forall j :: 0 <= j < i ==> !DigitKAt(s, j)
  }

  /** The v1.3 size scan finds nothing exactly when no digit is followed by K. */
  lemma {:induction false} SizeTag13None(s: string)
    ensures SizeTag13(s).None? <==> forall i :: !DigitKAt(s, i)
    decreases |s|
  {
    if s == [] {
    } else if IsDigit(s[0]) {
      var n := LeadDigits(s);
      if n < |s| && IsK(s[n]) {
        assert DigitKAt(s, n - 1);
      } else {
        SizeTag13None(s[n..]);
        forall j | 0 <= j < n ensures !DigitKAt(s, j) {
          if j + 1 < n {
            assert IsDigit(s[j + 1]);
          }
        }
        if SizeTag13(s[n..]).None? {
          forall i ensures !DigitKAt(s, i) {
            if i >= n {
              assert !DigitKAt(s[n..], i - n);
            }
          }
        } else {
          var i :| DigitKAt(s[n..], i);
          assert DigitKAt(s, i + n);
        }
      }
    } else {
      SizeTag13None(s[1..]);
      assert !DigitKAt(s, 0);
      if SizeTag13(s[1..]).None? {
        forall i ensures !DigitKAt(s, i) {
          if i >= 1 {
            assert !DigitKAt(s[1..], i - 1);
          }
        }
      } else {
        var i :| DigitKAt(s[1..], i);
        assert DigitKAt(s, i + 1);
      }
    }
  }

  /** A tag the v1.3 size scan returns is the first run of digits followed by K, with its K. */
  lemma {:induction false} SizeTag13First(s: string)
    requires SizeTag13(s).Some?
    ensures IsSizeTag(SizeTag13(s).value)
    ensures exists i :: FirstSizeTagAt(s, SizeTag13(s).value, i)
    decreases |s|
  {
    var t := SizeTag13(s).value;
    if IsDigit(s[0]) {
      var n := LeadDigits(s);
      if n < |s| && IsK(s[n]) {
        assert s[0..n + 1] == s[..n + 1];
        assert FirstSizeTagAt(s, t, 0);
      } else {
        assert SizeTag13(s) == SizeTag13(s[n..]);
        SizeTag13First(s[n..]);
        var i :| FirstSizeTagAt(s[n..], t, i);
        assert i > 0;
        NoTagInRun(s);
        FirstShift(s, n, t, i);
      }
    } else {
      assert SizeTag13(s) == SizeTag13(s[1..]);
      SizeTag13First(s[1..]);
      var i :| FirstSizeTagAt(s[1..], t, i);
      FirstShift(s, 1, t, i);
    }
  }

  /** Inside a run of digits that no K ends, no digit is followed by K. */
  lemma NoTagInRun(s: string)
    requires !(LeadDigits(s) < |s| && IsK(s[LeadDigits(s)]))
    ensures forall j :: 0 <= j < LeadDigits(s) ==> !DigitKAt(s, j)
  {
    var n := LeadDigits(s);
    forall j | 0 <= j < n
      ensures !DigitKAt(s, j)
    {
      if j + 1 < n {
        assert IsDigit(s[j + 1]);
      }
    }
  }

  /** The first tag of a suffix is the first tag of the whole when the skipped prefix holds none. */
  lemma FirstShift(s: string, n: nat, t: string, i: int)
    requires 0 < n <= |s| && FirstSizeTagAt(s[n..], t, i)
    requires forall j :: 0 <= j < n ==> !DigitKAt(s, j)
    requires i > 0 || !IsDigit(s[n - 1])
    ensures FirstSizeTagAt(s, t, n + i)
  {
    AtShift(s, n, t, i);
    forall j | n <= j < n + i
      ensures !DigitKAt(s, j)
    {
      assert !DigitKAt(s[n..], j - n);
    }
    if i > 0 {
      assert s[n + i - 1] == s[n..][i - 1];
    }
  }

  /** `t` stands at position `i` of `s`, right after an underscore. */
  predicate AfterUnderscoreAt(s: string, t: string, i: int) {
    1 <= i && At(s, t, i) && s[i - 1] == '_'
  }

  /**
   * `t` is `group(1)` of the leftmost `_\d+[Kk]` match of `s`, whose underscore
   * stands at `i`: no match starts earlier.
   */
  predicate FirstUnderscoreTagAt(s: string, t: string, i: int) {
    UnderscoreSizeAt(s, i) && At(s, t, i + 1) && forall j :: 0 <= j < i ==> !UnderscoreSizeAt(s, j)
  }

  /** A match at position `i + 1` of `s` is a match at position `i` of `s[1..]`, and back. */
  lemma UnderscoreSizeShift(s: string, i: int)
    requires s != [] && 0 <= i
    ensures UnderscoreSizeAt(s, i + 1) <==> UnderscoreSizeAt(s[1..], i)
  {
    if i + 1 < |s| {
      assert s[i + 1..] == s[1..][i..];
    }
  }

  /** The v1.2 size scan finds nothing exactly when no `_\d+[Kk]` match exists. */
  lemma {:induction false} SizeTag12None(s: string)
    ensures SizeTag12(s).None? <==> forall i :: !UnderscoreSizeAt(s, i)
    decreases |s|
  {
    if s == [] {
    } else if UnderscoreSizeFront(s) {
      assert s[0..] == s;
      assert UnderscoreSizeAt(s, 0);
    } else {
      SizeTag12None(s[1..]);
      assert s[0..] == s;
      if SizeTag12(s[1..]).None? {
        forall i ensures !UnderscoreSizeAt(s, i) {
          if i >= 1 {
            UnderscoreSizeShift(s, i - 1);
          }
        }
      } else {
        var i :| UnderscoreSizeAt(s[1..], i);
        UnderscoreSizeShift(s, i);
      }
    }
  }

  /**
   * The v1.2 size scan returns a size tag that follows an underscore in `s`, and
   * it is the group of the leftmost `_\d+[Kk]` match.
   */
  lemma {:induction false} SizeTag12Found(s: string)
    requires SizeTag12(s).Some?
    ensures IsSizeTag(SizeTag12(s).value)
    ensures exists i :: AfterUnderscoreAt(s, SizeTag12(s).value, i)
    ensures exists i :: FirstUnderscoreTagAt(s, SizeTag12(s).value, i)
    decreases |s|
  {
    var t := SizeTag12(s).value;
    if UnderscoreSizeFront(s) {
      var n := LeadDigits(s[1..]);
      assert forall k :: 0 <= k < n ==> t[k] == s[1..][k];
      assert s[1..1 + |t|] == t;
      assert AfterUnderscoreAt(s, t, 1);
      assert s[0..] == s;
      assert FirstUnderscoreTagAt(s, t, 0);
    } else {
      SizeTag12Found(s[1..]);
      var i :| AfterUnderscoreAt(s[1..], t, i);
      AtShift(s, 1, t, i);
      assert AfterUnderscoreAt(s, t, i + 1);
      var m :| FirstUnderscoreTagAt(s[1..], t, m);
      UnderscoreSizeShift(s, m);
      AtShift(s, 1, t, m + 1);
      assert s[0..] == s;
      forall j | 0 <= j < m + 1
        ensures !UnderscoreSizeAt(s, j)
      {
        if j >= 1 {
          UnderscoreSizeShift(s, j - 1);
        }
      }
      assert FirstUnderscoreTagAt(s, t, m + 1);
    }
  }

  /** Whenever v1.2 finds a size tag, v1.3 finds one too (possibly an earlier one). */
  lemma SizeTagFoundByBoth(s: string)
    requires SizeTag12(s).Some?
    ensures SizeTag13(s).Some?
  {
    SizeTag12Found(s);
    SizeTag13None(s);
    var t := SizeTag12(s).value;
    var i :| AfterUnderscoreAt(s, t, i);
    assert s[i + |t| - 2] == t[|t| - 2] && s[i + |t| - 1] == t[|t| - 1];
    assert DigitKAt(s, i + |t| - 2);
  }

  /** `re.sub(r'\d{4}', '<UDIM>', s)`: every four-digit group, left to right. */
  function ReplaceFourDigitGroups(s: string): string
    decreases |s|
  {
    if LeadDigits(s) >= 4 then "<UDIM>" + ReplaceFourDigitGroups(s[4..])
    else if s == [] then []
    else [s[0]] + ReplaceFourDigitGroups(s[1..])
  }

  /** How many digits start the rewritten string. */
  lemma {:induction false} ReplaceLeadDigits(s: string)
    ensures LeadDigits(ReplaceFourDigitGroups(s)) == if LeadDigits(s) >= 4 then 0 else LeadDigits(s)
    decreases |s|
  {
    if LeadDigits(s) < 4 && s != [] {
      ReplaceLeadDigits(s[1..]);
      var r := ReplaceFourDigitGroups(s);
      assert r[1..] == ReplaceFourDigitGroups(s[1..]);
    }
  }

  /** A digit-free prefix neither creates nor hides a four-digit group. */
  lemma {:induction false} PlainPrefixGroups(p: string, s: string)
    requires forall k :: 0 <= k < |p| ==> !IsDigit(p[k])
    ensures HasFourDigits(p + s) <==> HasFourDigits(s)
    decreases |p|
  {
    if p != [] {
      assert (p + s)[0] == p[0];
      assert (p + s)[1..] == p[1..] + s;
      assert LeadDigits(p + s) == 0;
      assert forall k :: 0 <= k < |p[1..]| ==> p[1..][k] == p[k + 1];
      PlainPrefixGroups(p[1..], s);
    } else {
      assert p + s == s;
    }
  }

  /** After the rewrite no four-digit group is left anywhere in the path. */
  lemma {:induction false} ReplaceLeavesNoGroup(s: string)
    ensures !HasFourDigits(ReplaceFourDigitGroups(s))
    decreases |s|
  {
    var r := ReplaceFourDigitGroups(s);
    ReplaceLeadDigits(s);
    if LeadDigits(s) >= 4 {
      ReplaceLeavesNoGroup(s[4..]);
      PlainPrefixGroups("<UDIM>", ReplaceFourDigitGroups(s[4..]));
    } else if s != [] {
      ReplaceLeavesNoGroup(s[1..]);
      assert r[1..] == ReplaceFourDigitGroups(s[1..]);
    }
  }

  /** A path with no four-digit group is left as it is. */
  lemma {:induction false} ReplaceWithoutGroup(s: string)
    requires !HasFourDigits(s)
    ensures ReplaceFourDigitGroups(s) == s
    decreases |s|
  {
    if s != [] {
      ReplaceWithoutGroup(s[1..]);
    }
  }

  /** Consequently the rewrite is idempotent. */
  lemma ReplaceIdempotent(s: string)
    ensures ReplaceFourDigitGroups(ReplaceFourDigitGroups(s)) == ReplaceFourDigitGroups(s)
  {
    ReplaceLeavesNoGroup(s);
    ReplaceWithoutGroup(ReplaceFourDigitGroups(s));
  }

  /** A prefix without digits is kept in front of the rewritten rest. */
  lemma {:induction false} ReplaceAfterPlainPrefix(p: string, s: string)
    requires forall k :: 0 <= k < |p| ==> !IsDigit(p[k])
    ensures ReplaceFourDigitGroups(p + s) == p + ReplaceFourDigitGroups(s)
    decreases |p|
  {
    if p != [] {
      assert (p + s)[0] == p[0];
      assert (p + s)[1..] == p[1..] + s;
      assert LeadDigits(p + s) == 0;
      assert forall k :: 0 <= k < |p[1..]| ==> p[1..][k] == p[k + 1];
      ReplaceAfterPlainPrefix(p[1..], s);
      assert p == [p[0]] + p[1..];
    } else {
      assert p + s == s;
    }
  }

  /** A digit-free tail does not change how many digits lead the string, unless all of it is digits. */
  lemma {:induction false} LeadDigitsBeforePlain(p: string, s: string)
    requires forall k :: 0 <= k < |s| ==> !IsDigit(s[k])
    ensures LeadDigits(p + s) == LeadDigits(p)
    decreases |p|
  {
    if p == [] {
      assert p + s == s;
    } else {
      assert (p + s)[0] == p[0];
      assert (p + s)[1..] == p[1..] + s;
      if IsDigit(p[0]) {
        LeadDigitsBeforePlain(p[1..], s);
      }
    }
  }

  /** A suffix without digits is kept behind the rewritten rest (so `.tx` survives the rewrite). */
  lemma {:induction false} ReplaceBeforePlainSuffix(p: string, s: string)
    requires forall k :: 0 <= k < |s| ==> !IsDigit(s[k])
    ensures ReplaceFourDigitGroups(p + s) == ReplaceFourDigitGroups(p) + s
    decreases |p|
  {
    LeadDigitsBeforePlain(p, s);
    if p == [] {
      assert p + s == s;
      ReplaceAfterPlainPrefix(s, []);
      assert s + [] == s;
    } else if LeadDigits(p) >= 4 {
      assert (p + s)[4..] == p[4..] + s;
      ReplaceBeforePlainSuffix(p[4..], s);
    } else {
      assert (p + s)[0] == p[0];
      assert (p + s)[1..] == p[1..] + s;
      ReplaceBeforePlainSuffix(p[1..], s);
    }
  }
}
