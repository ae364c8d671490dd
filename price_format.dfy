/** The `formatPrice` helper that components/ProductCard.js, pages/dashboard.js and
    src/pages/dashboard.js each define identically: `₹` followed by
    `price.toString()` with the regular expression `\B(?=(\d{3})+(?!\d))`
    replaced by `,`, which puts a comma before every complete group of three
    digits counted from the right. */
module PriceFormat {
  import opened Wrappers
  import opened Text

  const Rupee: char := '\U{20B9}'

  /** The comma insertion on a run of digits. */
  function Group(d: string): string
    decreases |d|
  {
    if |d| <= 3 then d else Group(d[..|d| - 3]) + "," + d[|d| - 3..]
  }

  /** The regular-expression replacement on `n.toString()`: a leading minus sign is a
      word boundary, so grouping only happens inside the digit run. */
  function InsertCommas(s: string): string {
    if s != [] && s[0] == '-' then "-" + Group(s[1..]) else Group(s)
  }

  function FormatPrice(price: int): string {
    [Rupee] + InsertCommas(IntToString(price))
  }

  function StripCommas(s: string): (r: string)
    ensures forall i :: 0 <= i < |r| ==> r[i] != ','
  {
    if s == [] then [] else (if s[0] == ',' then [] else [s[0]]) + StripCommas(s[1..])
  }

  lemma {:induction false} StripCommasAppend(a: string, b: string)
    ensures StripCommas(a + b) == StripCommas(a) + StripCommas(b)
    decreases |a|
  {
    if a == [] {
      assert a + b == b;
    } else {
      assert (a + b)[1..] == a[1..] + b;
      StripCommasAppend(a[1..], b);
    }
  }

  lemma StripCommasOfDigits(d: string)
    requires AllDigits(d)
    ensures StripCommas(d) == d
  {
    if d != [] {
      assert AllDigits(d[1..]) by {
        forall i | 0 <= i < |d| - 1 ensures IsDigit(d[1..][i]) {
          assert d[1..][i] == d[i + 1];
        }
      }
      StripCommasOfDigits(d[1..]);
    }
  }

  /** Every comma is followed by exactly three digits and then a comma or the end. */
  predicate CommasBeforeTriples(r: string) {
    forall i :: 0 <= i < |r| && r[i] == ',' ==>
      i + 3 < |r| && IsDigit(r[i + 1]) && IsDigit(r[i + 2]) && IsDigit(r[i + 3]) &&
      (i + 4 == |r| || r[i + 4] == ',')
  }

  /** The shape of a grouped digit run: no leading comma, a first group of one to
      three characters, and every comma followed by three digits and then a comma
      or the end. */
  predicate Grouped(r: string) {
    && |r| > 0 && r[0] != ','
    && (|r| > 3 ==> ',' in r[..4])
    && CommasBeforeTriples(r)
  }

  /** Appending a comma and three digits to a grouped run keeps it grouped. */
  lemma AppendTriple(g: string, t: string)
    requires Grouped(g) && |t| == 3 && AllDigits(t)
    ensures Grouped(g + "," + t)
  {
    var r := g + "," + t;
    assert r[..|g|] == g;
    assert |r| > 3 ==> ',' in r[..4] by {
      if |g| > 3 {
        assert r[..4] == g[..4];
      } else {
        assert r[|g|] == ',';
      }
    }
    forall i | 0 <= i < |r| && r[i] == ','
      ensures i + 3 < |r| && IsDigit(r[i + 1]) && IsDigit(r[i + 2]) && IsDigit(r[i + 3])
      ensures i + 4 == |r| || r[i + 4] == ','
    {
      if i < |g| {
        assert g[i] == ',';
        assert r[i + 1] == g[i + 1] && r[i + 2] == g[i + 2] && r[i + 3] == g[i + 3];
        if i + 4 < |g| {
          assert r[i + 4] == g[i + 4];
        }
      }
    }
  }

  lemma {:induction false} GroupStrip(d: string)
    requires AllDigits(d)
    ensures StripCommas(Group(d)) == d
    decreases |d|
  {
    if |d| <= 3 {
      StripCommasOfDigits(d);
    } else {
      var p, t := d[..|d| - 3], d[|d| - 3..];
      assert AllDigits(p) by {
        forall i | 0 <= i < |p| ensures IsDigit(p[i]) {
          assert p[i] == d[i];
        }
      }
      GroupStrip(p);
      var g := Group(p);
      StripCommasAppend(g + ",", t);
      StripCommasAppend(g, ",");
      StripCommasOfDigits(t);
      assert StripCommas(",") == [];
      assert p + t == d;
    }
  }

  /** The shape the regular expression produces on a run of digits: it is grouped,
      and removing the commas gives the digits back. */
  lemma {:induction false} GroupShape(d: string)
    requires |d| > 0 && AllDigits(d)
    ensures Grouped(Group(d))
    ensures StripCommas(Group(d)) == d
    decreases |d|
  {
    GroupStrip(d);
    if |d| <= 3 {
      assert IsDigit(d[0]);
      forall i | 0 <= i < |d| ensures d[i] != ',' {
        assert IsDigit(d[i]);
      }
    } else {
      var p, t := d[..|d| - 3], d[|d| - 3..];
      assert AllDigits(p) by {
        forall i | 0 <= i < |p| ensures IsDigit(p[i]) {
          assert p[i] == d[i];
        }
      }
      assert AllDigits(t) by {
        forall i | 0 <= i < 3 ensures IsDigit(t[i]) {
          assert t[i] == d[|d| - 3 + i];
        }
      }
      GroupShape(p);
      AppendTriple(Group(p), t);
    }
  }

  /** `formatPrice(n)` is `₹`, then `n.toString()` with commas that, once removed,
      give `n.toString()` back; the digit run carries the grouping shape. */
  lemma FormatPriceShape(n: int)
    ensures var f := FormatPrice(n);
      && |f| > 1 && f[0] == Rupee && f[1] != ','
      && StripCommas(f[1..]) == IntToString(n)
    ensures n >= 0 ==> Grouped(FormatPrice(n)[1..])
  {
    var f := FormatPrice(n);
    if n < 0 {
      var d := NatToString(-n);
      GroupShape(d);
      assert f[1..] == "-" + Group(d);
      StripCommasAppend("-", Group(d));
    } else {
      var d := NatToString(n);
      GroupShape(d);
      assert d[0] != '-' by { assert IsDigit(d[0]); }
      assert f[1..] == Group(d);
    }
  }

  /** For a non-negative price the digits after `₹` and without the commas read back
      as the price. */
  lemma FormatPriceRoundTrip(n: nat)
    ensures var s := StripCommas(FormatPrice(n)[1..]);
      AllDigits(s) && ParseDecimal(s) == n
  {
    FormatPriceShape(n);
    NatToStringRoundTrip(n);
  }
}
