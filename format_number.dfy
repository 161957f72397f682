/** `Utils.formatNumber` (dashboard/static/js/app.js): the decimal string
    of a number with `,` inserted by the global replacement of the pattern
    `\B(?=(\d{3})+(?!\d))`. */
module Utils {
  import opened Common

  /** In a string of digits the pattern matches (with an empty match) at
      the positions not at either end whose distance to the end is a
      positive multiple of three. */
  predicate CommaBefore(digits: string, p: int)
  {
    0 < p < |digits| && (|digits| - p) % 3 == 0
  }

  /** The replacement applied to the first `k` characters: each matched
      position gets a comma in front of its character. */
  function Replaced(digits: string, k: nat): string
    requires k <= |digits|
    decreases k
  {
    if k == 0 then ""
    else Replaced(digits, k - 1) + (if CommaBefore(digits, k - 1) then "," else "") + [digits[k - 1]]
  }

  /** `num.toString().replace(/\B(?=(\d{3})+(?!\d))/g, ',')` for a
      non-negative integer. */
  function FormatNumber(num: nat): (r: string)
    ensures r == Grouped(NatToString(num))
  {
    var digits := NatToString(num);
    ReplacedIsGrouped(digits);
    Replaced(digits, |digits|)
  }

  /** Grouping by threes from the right, as a reference definition. */
  function Grouped(digits: string): string
    decreases |digits|
  {
    if |digits| <= 3 then digits else Grouped(digits[..|digits| - 3]) + "," + digits[|digits| - 3..]
  }

  function RemoveCommas(s: string): string
    decreases |s|
  {
    if s == [] then "" else RemoveCommas(s[..|s| - 1]) + (if s[|s| - 1] == ',' then "" else [s[|s| - 1]])
  }

  // ---------------------------------------------------------------------
  // The replacement is the grouping.

  lemma {:induction false} ReplacedWithoutMatches(d: string, k: nat)
    requires k <= |d|
    requires forall i :: 0 <= i < k ==> !CommaBefore(d, i)
    ensures Replaced(d, k) == d[..k]
  {
    if k > 0 {
      ReplacedWithoutMatches(d, k - 1);
      assert d[..k] == d[..k - 1] + [d[k - 1]];
    }
  }

  lemma ModThree(x: int)
    ensures (x + 3) % 3 == x % 3
  {
  }

  /** The last three digits of a longer string form the last group: the
      pattern matches before the first of them and not inside them. */
  lemma {:induction false} ReplacedLastGroup(d: string)
    requires |d| > 3
    ensures Replaced(d, |d|) == Replaced(d, |d| - 3) + "," + d[|d| - 3..]
  {
    var m := |d| - 3;
    assert CommaBefore(d, m) && !CommaBefore(d, m + 1) && !CommaBefore(d, m + 2);
    assert Replaced(d, m + 1) == Replaced(d, m) + "," + [d[m]];
    assert Replaced(d, m + 2) == Replaced(d, m + 1) + [d[m + 1]];
    assert Replaced(d, |d|) == Replaced(d, m + 2) + [d[m + 2]];
    assert d[m..] == [d[m]] + [d[m + 1]] + [d[m + 2]];
  }

  /** Before the last three digits the pattern matches where it matches
      in the string without them: the distances to the end differ by three. */
  lemma {:induction false} ReplacedDropGroup(d: string, k: nat)
    requires |d| > 3 && k <= |d| - 3
    ensures Replaced(d, k) == Replaced(d[..|d| - 3], k)
    decreases k
  {
    if k > 0 {
      ReplacedDropGroup(d, k - 1);
      ModThree(|d| - 3 - (k - 1));
      assert d[..|d| - 3][k - 1] == d[k - 1];
    }
  }

  lemma {:induction false} ReplacedIsGrouped(d: string)
    ensures Replaced(d, |d|) == Grouped(d)
    decreases |d|
  {
    if |d| <= 3 {
      ReplacedWithoutMatches(d, |d|);
      assert d[..|d|] == d;
    } else {
      var m := |d| - 3;
      ReplacedLastGroup(d);
      ReplacedDropGroup(d, m);
      ReplacedIsGrouped(d[..m]);
    }
  }


  // ---------------------------------------------------------------------
  // What the grouping looks like.

  lemma {:induction false} RemoveCommasAppend(a: string, b: string)
    ensures RemoveCommas(a + b) == RemoveCommas(a) + RemoveCommas(b)
    decreases |b|
  {
    if b == [] {
      assert a + b == a;
    } else {
      assert (a + b)[..|a + b| - 1] == a + b[..|b| - 1];
      RemoveCommasAppend(a, b[..|b| - 1]);
    }
  }

  lemma {:induction false} RemoveCommasOfDigits(d: string)
    requires AllDigits(d)
    ensures RemoveCommas(d) == d
    decreases |d|
  {
    if d != [] {
      RemoveCommasOfDigits(d[..|d| - 1]);
      assert d == d[..|d| - 1] + [d[|d| - 1]];
    }
  }

  lemma {:induction false} GroupedDigits(d: string)
    requires AllDigits(d)
    ensures RemoveCommas(Grouped(d)) == d
    decreases |d|
  {
    if |d| <= 3 {
      RemoveCommasOfDigits(d);
    } else {
      var m := |d| - 3;
      GroupedDigits(d[..m]);
      RemoveCommasAppend(Grouped(d[..m]) + ",", d[m..]);
      RemoveCommasAppend(Grouped(d[..m]), ",");
      assert RemoveCommas(",") == RemoveCommas("") + "";
      RemoveCommasOfDigits(d[m..]);
      assert d == d[..m] + d[m..];
    }
  }

  /** Deleting the commas gives the decimal string back. */
  lemma CommasRemovedGiveDigits(num: nat)
    ensures RemoveCommas(FormatNumber(num)) == NatToString(num)
  {
    GroupedDigits(NatToString(num));
  }

  /** Every character is a digit or a comma, the first is a digit, the
      first comma (if any) comes after one to three digits, and every comma
      is followed by exactly three digits and then a comma or the end. */
  predicate GroupLayout(g: string)
  {
    |g| >= 1 && IsDigit(g[0]) &&
    (forall i :: 0 <= i < |g| ==> g[i] == ',' || IsDigit(g[i])) &&
    (|g| > 3 ==> ',' in g[1..4]) &&
    (forall i :: 0 <= i < |g| && g[i] == ',' ==>
      i + 3 < |g| && IsDigit(g[i + 1]) && IsDigit(g[i + 2]) && IsDigit(g[i + 3]) &&
      (i + 4 == |g| || g[i + 4] == ','))
  }

  lemma LayoutStep(f: string, t: string)
    requires GroupLayout(f) && AllDigits(t) && |t| == 3
    ensures GroupLayout(f + [','] + t)
  {
    var g := f + [','] + t;
    assert |g| == |f| + 4;
    forall i | 0 <= i < |g| && g[i] == ',' ensures
      i + 3 < |g| && IsDigit(g[i + 1]) && IsDigit(g[i + 2]) && IsDigit(g[i + 3]) &&
      (i + 4 == |g| || g[i + 4] == ',')
    {
      if i < |f| {
        assert f[i] == ',';
        if i + 4 == |f| {
          assert g[i + 4] == ',';
        }
      }
    }
    if |f| > 3 {
      assert g[1..4] == f[1..4];
    } else {
      assert g[1..4][|f| - 1] == ',';
    }
  }

  lemma {:induction false} GroupedShape(d: string)
    requires AllDigits(d) && |d| >= 1
    ensures GroupLayout(Grouped(d))
    decreases |d|
  {
    if |d| > 3 {
      var m := |d| - 3;
      GroupedShape(d[..m]);
      if m <= 3 {
        assert Grouped(d[..m]) == d[..m];
      }
      LayoutStep(Grouped(d[..m]), d[m..]);
      assert Grouped(d) == Grouped(d[..m]) + [','] + d[m..];
    } else {
      forall i | 0 <= i < |d| ensures d[i] != ',' {
        assert IsDigit(d[i]);
      }
    }
  }

  /** The grouping puts `(|d| - 1) / 3` commas into `d` digits. */
  lemma {:induction false} GroupedCommaCount(d: string)
    requires AllDigits(d) && |d| >= 1
    ensures Count(Grouped(d), ',') == (|d| - 1) / 3
    decreases |d|
  {
    if |d| <= 3 {
      CountBound(d, ',');
      assert ',' !in d by {
        forall i | 0 <= i < |d| ensures d[i] != ',' {
          assert IsDigit(d[i]);
        }
      }
    } else {
      var m := |d| - 3;
      var tail := d[m..];
      GroupedCommaCount(d[..m]);
      CountAppend(Grouped(d[..m]) + ",", tail, ',');
      CountAppend(Grouped(d[..m]), ",", ',');
      assert Count(",", ',') == Count("", ',') + 1 by {
        assert ","[..0] == "";
      }
      CountBound(tail, ',');
      assert ',' !in tail by {
        forall i | 0 <= i < |tail| ensures tail[i] != ',' {
          assert IsDigit(d[m + i]);
        }
      }
    }
  }

  /** A number with `k` digits is printed with `(k - 1) / 3` commas. */
  lemma FormatNumberCommaCount(num: nat)
    ensures Count(FormatNumber(num), ',') == (|NatToString(num)| - 1) / 3
  {
    GroupedCommaCount(NatToString(num));
  }

  lemma {:induction false} NatToStringLength(num: nat)
    ensures num < 1000 <==> |NatToString(num)| <= 3
    decreases num
  {
    if num >= 10 {
      NatToStringLength(num / 10);
    }
  }

  /** Below 1000 the output is the plain decimal string; from 1000 on it
      has a comma. */
  lemma SmallNumbersUnchanged(num: nat)
    ensures num < 1000 ==> FormatNumber(num) == NatToString(num)
    ensures ',' in FormatNumber(num) <==> num >= 1000
  {
    NatToStringLength(num);
    var d := NatToString(num);
    if num >= 1000 {
      assert Grouped(d)[|Grouped(d[..|d| - 3])|] == ',';
    } else {
      assert forall i :: 0 <= i < |d| ==> IsDigit(d[i]);
    }
  }

  /** The output follows the comma layout above. */
  lemma FormatNumberShape(num: nat)
    ensures GroupLayout(FormatNumber(num))
  {
    GroupedShape(NatToString(num));
  }
}
