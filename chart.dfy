/**
 * The data behind the charts (frontend/src/Components/Chart/Chart.js): the
 * line series, the per-category totals of the bar charts and the shortened
 * axis labels on narrow screens.
 */
module Chart {
  import opened GlobalContext

  /** Line-chart data: the incomes' date labels, the income amounts and the expense amounts. */
  datatype LineData = LineData(labels: seq<string>, incomeData: seq<real>, expenseData: seq<real>)

  /** `list.map(item => item.amount)`. */
  function Amounts(s: seq<Transaction>): (r: seq<real>)
    ensures |r| == |s|
    ensures forall i :: 0 <= i < |s| ==> r[i] == s[i].amount
    decreases |s|
  {
    if s == [] then [] else [s[0].amount] + Amounts(s[1..])
  }

  /** `incomes.map(inc => dateFormat(inc.date))`; the date formatter is a parameter. */
  function Labels(s: seq<Transaction>, dateFormat: int -> string): (r: seq<string>)
    ensures |r| == |s|
    ensures forall i :: 0 <= i < |s| ==> r[i] == dateFormat(s[i].date)
    decreases |s|
  {
    if s == [] then [] else [dateFormat(s[0].date)] + Labels(s[1..], dateFormat)
  }

  /** One label per income, and one point per income and per expense, in list order. */
  function LineSeries(incomes: seq<Transaction>, expenses: seq<Transaction>, dateFormat: int -> string)
    : (d: LineData)
    ensures |d.labels| == |incomes| && |d.incomeData| == |incomes| && |d.expenseData| == |expenses|
    ensures forall i :: 0 <= i < |incomes| ==>
              d.labels[i] == dateFormat(incomes[i].date) && d.incomeData[i] == incomes[i].amount
    ensures forall i :: 0 <= i < |expenses| ==> d.expenseData[i] == expenses[i].amount
  {
    LineData(Labels(incomes, dateFormat), Amounts(incomes), Amounts(expenses))
  }

  /** One entry of the accumulator object: a category key and its running total. */
  datatype Bucket = Bucket(category: string, total: real)

  /** `acc[c] || 0`. */
  function Lookup(acc: seq<Bucket>, c: string): real
    decreases |acc|
  {
    if acc == [] then 0.0
    else if acc[0].category == c then acc[0].total
    else Lookup(acc[1..], c)
  }

  /** `acc[c] = (acc[c] || 0) + amount`: a new key goes last, as in an object's key order. */
  function Bump(acc: seq<Bucket>, c: string, amount: real): seq<Bucket>
    decreases |acc|
  {
    if acc == [] then [Bucket(c, amount)]
    else if acc[0].category == c then [Bucket(c, acc[0].total + amount)] + acc[1..]
    else [acc[0]] + Bump(acc[1..], c, amount)
  }

  /** The value of `list.reduce(...)` over the whole list, one `Bump` per item from the first on. */
  function GroupTotals(s: seq<Transaction>): seq<Bucket>
    decreases |s|
  {
    if s == [] then [] else Bump(GroupTotals(s[..|s| - 1]), s[|s| - 1].category, s[|s| - 1].amount)
  }

  /** `Object.keys(acc)`. */
  function Categories(acc: seq<Bucket>): seq<string>
    decreases |acc|
  {
    if acc == [] then [] else [acc[0].category] + Categories(acc[1..])
  }

  /** The sum of `Object.values(acc)`. */
  function BucketSum(acc: seq<Bucket>): real
    decreases |acc|
  {
    if acc == [] then 0.0 else acc[0].total + BucketSum(acc[1..])
  }

  /** The amounts of the items of category `c`, added up. */
  function CategorySum(s: seq<Transaction>, c: string): real
    decreases |s|
  {
    if s == [] then 0.0
    else CategorySum(s[..|s| - 1], c) + (if s[|s| - 1].category == c then s[|s| - 1].amount else 0.0)
  }

  ghost predicate Distinct(keys: seq<string>) {
    forall i, j :: 0 <= i < j < |keys| ==> keys[i] != keys[j]
  }

  lemma {:induction false} BumpLookup(acc: seq<Bucket>, c: string, amount: real, d: string)
    ensures Lookup(Bump(acc, c, amount), d) == Lookup(acc, d) + (if d == c then amount else 0.0)
    decreases |acc|
  {
    if acc != [] && acc[0].category != c {
      BumpLookup(acc[1..], c, amount, d);
    }
  }

  lemma {:induction false} BumpKeys(acc: seq<Bucket>, c: string, amount: real)
    ensures forall d :: d in Categories(Bump(acc, c, amount)) <==> d in Categories(acc) || d == c
    decreases |acc|
  {
    if acc != [] && acc[0].category != c {
      BumpKeys(acc[1..], c, amount);
    }
  }

  lemma {:induction false} BumpDistinct(acc: seq<Bucket>, c: string, amount: real)
    requires Distinct(Categories(acc))
    ensures Distinct(Categories(Bump(acc, c, amount)))
    decreases |acc|
  {
    if acc != [] {
      var tail := Categories(acc[1..]);
      assert Categories(acc) == [acc[0].category] + tail;
      assert Distinct(tail) by {
        forall i, j | 0 <= i < j < |tail| ensures tail[i] != tail[j] {
          assert tail[i] == Categories(acc)[i + 1] && tail[j] == Categories(acc)[j + 1];
        }
      }
      assert Categories(acc)[0] == acc[0].category;
      assert acc[0].category !in tail by {
        forall j | 0 <= j < |tail| ensures tail[j] != acc[0].category {
          assert tail[j] == Categories(acc)[j + 1];
        }
      }
      if acc[0].category == c {
        assert Categories(Bump(acc, c, amount)) == [c] + tail;
      } else {
        BumpDistinct(acc[1..], c, amount);
        BumpKeys(acc[1..], c, amount);
        var rest := Categories(Bump(acc[1..], c, amount));
        var keys := [acc[0].category] + rest;
        assert Categories(Bump(acc, c, amount)) == keys;
        forall i, j | 0 <= i < j < |keys| ensures keys[i] != keys[j] {
          assert keys[j] == rest[j - 1];
          if i > 0 {
            assert keys[i] == rest[i - 1];
          }
        }
      }
    }
  }

  lemma {:induction false} BumpSum(acc: seq<Bucket>, c: string, amount: real)
    ensures BucketSum(Bump(acc, c, amount)) == BucketSum(acc) + amount
    decreases |acc|
  {
    if acc != [] && acc[0].category != c {
      BumpSum(acc[1..], c, amount);
    }
  }

  /** With distinct keys, every entry holds what `Lookup` finds for its key. */
  lemma {:induction false} EntryIsLookup(acc: seq<Bucket>, k: nat)
    requires Distinct(Categories(acc))
    requires k < |acc|
    ensures acc[k].total == Lookup(acc, acc[k].category)
    decreases |acc|
  {
    if k > 0 {
      var tail := Categories(acc[1..]);
      assert Categories(acc) == [acc[0].category] + tail;
      assert Categories(acc)[k] == acc[k].category by { CategoryAt(acc, k); }
      assert Categories(acc)[0] == acc[0].category;
      assert acc[0].category != acc[k].category;
      assert Distinct(tail) by {
        forall i, j | 0 <= i < j < |tail| ensures tail[i] != tail[j] {
          assert tail[i] == Categories(acc)[i + 1] && tail[j] == Categories(acc)[j + 1];
        }
      }
      EntryIsLookup(acc[1..], k - 1);
    }
  }

  lemma {:induction false} CategoryAt(acc: seq<Bucket>, k: nat)
    requires k < |acc|
    ensures |Categories(acc)| == |acc| && Categories(acc)[k] == acc[k].category
    decreases |acc|
  {
    if k > 0 {
      CategoryAt(acc[1..], k - 1);
    } else if |acc| > 1 {
      CategoryAt(acc[1..], 0);
    }
  }

  /**
   * The per-category totals: one key per category that occurs, each once,
   * in order of first occurrence; each key's value is the sum of the
   * amounts of that category; and the values add up to the overall total.
   */
  lemma {:induction false} GroupTotalsCorrect(s: seq<Transaction>)
    ensures Distinct(Categories(GroupTotals(s)))
    ensures forall c :: c in Categories(GroupTotals(s)) <==> exists i :: 0 <= i < |s| && s[i].category == c
    ensures forall c :: Lookup(GroupTotals(s), c) == CategorySum(s, c)
    ensures BucketSum(GroupTotals(s)) == Sum(s)
    decreases |s|
  {
    if s != [] {
      var p := s[..|s| - 1];
      var last := s[|s| - 1];
      GroupTotalsCorrect(p);
      var acc := GroupTotals(p);
      BumpDistinct(acc, last.category, last.amount);
      BumpKeys(acc, last.category, last.amount);
      BumpSum(acc, last.category, last.amount);
      forall c ensures Lookup(GroupTotals(s), c) == CategorySum(s, c) {
        BumpLookup(acc, last.category, last.amount, c);
      }
      forall c ensures c in Categories(GroupTotals(s)) <==> exists i :: 0 <= i < |s| && s[i].category == c {
        if c in Categories(acc) {
          var i :| 0 <= i < |p| && p[i].category == c;
          assert s[i] == p[i];
        }
        if exists i :: 0 <= i < |s| && s[i].category == c {
          var i :| 0 <= i < |s| && s[i].category == c;
          if i < |p| {
            assert p[i] == s[i];
          }
        }
      }
    }
  }

  /**
   * The `reduce` that builds `incomeTotalsByCategory` (and
   * `expenseTotalsByCategory`): a loop over the list updating the
   * accumulator object.
   */
  method TotalsByCategory(s: seq<Transaction>) returns (acc: seq<Bucket>)
    ensures acc == GroupTotals(s)
    ensures Distinct(Categories(acc))
    ensures forall c :: c in Categories(acc) <==> exists i :: 0 <= i < |s| && s[i].category == c
    ensures forall k :: 0 <= k < |acc| ==> acc[k].total == CategorySum(s, acc[k].category)
    ensures BucketSum(acc) == Sum(s)
  {
    acc := [];
    var i := 0;
    while i < |s|
      invariant 0 <= i <= |s|
      invariant acc == GroupTotals(s[..i])
    {
      assert s[..i + 1][..i] == s[..i];
      acc := Bump(acc, s[i].category, s[i].amount);
      i := i + 1;
    }
    assert s[..|s|] == s;
    GroupTotalsCorrect(s);
    forall k | 0 <= k < |acc| ensures acc[k].total == CategorySum(s, acc[k].category) {
      EntryIsLookup(acc, k);
    }
  }

  /** `window.innerWidth <= 768`. */
  const MobileWidth := 768
  /** Longest label shown unshortened on a narrow screen. */
  const LabelLimit := 8

  /** The x-axis tick callback of the bar charts. */
  function TickLabel(text: string, width: int): (r: string)
    ensures width > MobileWidth || |text| <= LabelLimit ==> r == text
    ensures width <= MobileWidth ==> |r| <= LabelLimit + 3
    ensures width <= MobileWidth && |text| > LabelLimit ==>
              |r| == LabelLimit + 3 && r[..LabelLimit] == text[..LabelLimit] && r[LabelLimit..] == "..."
  {
    if width <= MobileWidth && |text| > LabelLimit then text[..LabelLimit] + "..." else text
  }

  /** Shortening an already shortened text changes nothing. */
  lemma TickLabelIdempotent(text: string, width: int)
    ensures TickLabel(TickLabel(text, width), width) == TickLabel(text, width)
  {
    var r := TickLabel(text, width);
    if width <= MobileWidth && |text| > LabelLimit {
      assert r[..LabelLimit] == text[..LabelLimit];
    }
  }
}
