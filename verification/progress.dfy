/** The text bar `progress` draws for the download and upload status
    display: 20 segments, of which `percent // 5` are filled. */
module Progress {
  import opened Model

  /** Number of segments in a bar for a transfer that has not overrun. */
  const BarWidth: nat := 20

  /** `█`, a filled segment. */
  const FullSymbol: char := '\U{2588}'

  /** `░`, an empty segment. */
  const EmptySymbol: char := '\U{2591}'

  /** Python's `c * n` on a one-character string: `n` copies of `c`, and the
      empty string when `n` is zero or negative. */
  function Repeat(c: char, n: int): (r: string)
    ensures |r| == if n > 0 then n else 0
    ensures forall i :: 0 <= i < |r| ==> r[i] == c
    decreases n
  {
    if n <= 0 then "" else [c] + Repeat(c, n - 1)
  }

  /** The number of filled segments, `int(percent // 5)` with
      `percent = current * 100 / total`, in exact integer arithmetic: the
      floor of `percent / 5`, i.e. the `k` with
      `5 * k <= percent < 5 * (k + 1)`, cleared of denominators. */
  function Filled(current: nat, total: nat): (k: nat)
    requires total > 0
    ensures 5 * k * total <= 100 * current
    ensures 100 * current < 5 * (k + 1) * total
  {
    current * BarWidth / total
  }

  /** The bar for `current` of `total` bytes; `None` when `total` is zero,
      where the division in `progress` raises. */
  function Bar(current: nat, total: nat): (r: Option<string>)
    ensures r.None? <==> total == 0
    ensures r.Some? ==> |r.value| == if Filled(current, total) > BarWidth then Filled(current, total) else BarWidth
    ensures r.Some? ==> forall i :: 0 <= i < |r.value| ==>
      (r.value[i] == FullSymbol <==> i < Filled(current, total))
    ensures r.Some? ==> forall i :: 0 <= i < |r.value| ==>
      (r.value[i] == EmptySymbol <==> i >= Filled(current, total))
  {
    if total == 0 then None
    else
      var filled := Filled(current, total);
      Some(Repeat(FullSymbol, filled) + Repeat(EmptySymbol, BarWidth - filled))
  }

  /** Any `k` meeting the floor bounds is the fill count. */
  lemma FilledUnique(current: nat, total: nat, k: nat)
    requires total > 0
    requires k * total <= current * BarWidth < (k + 1) * total
    ensures k == Filled(current, total)
  {
    var f := Filled(current, total);
    var n := current * BarWidth;
    assert f * total <= n < (f + 1) * total;
    if k < f {
      MulMonotone(k + 1, f, total);
      assert false;
    } else if f < k {
      MulMonotone(f + 1, k, total);
      assert false;
    }
  }

  lemma MulMonotone(a: nat, b: nat, c: nat)
    requires a <= b
    ensures a * c <= b * c
  {
  }

  /** Nothing transferred draws an empty bar, everything a full one, and
      exactly half of it ten filled segments. */
  lemma FilledMilestones(total: nat)
    requires total > 0
    ensures Filled(0, total) == 0
    ensures Filled(total, total) == BarWidth
    ensures total % 2 == 0 ==> Filled(total / 2, total) == BarWidth / 2
  {
    FilledUnique(0, total, 0);
    FilledUnique(total, total, BarWidth);
    if total % 2 == 0 {
      var h := total / 2;
      assert h * BarWidth == 10 * total;
      FilledUnique(h, total, 10);
    }
  }

  /** More bytes never draw fewer filled segments. */
  lemma FilledMonotone(c1: nat, c2: nat, total: nat)
    requires total > 0
    requires c1 <= c2
    ensures Filled(c1, total) <= Filled(c2, total)
  {
    var f1 := Filled(c1, total);
    var f2 := Filled(c2, total);
    var n1 := c1 * BarWidth;
    var n2 := c2 * BarWidth;
    assert f1 * total <= n1;
    assert n2 < (f2 + 1) * total;
    assert n1 <= n2;
    if f2 < f1 {
      MulMonotone(f2 + 1, f1, total);
      assert false;
    }
  }

  /** While the transfer has not overrun its total the bar is exactly
      twenty segments wide and at most full. */
  lemma BarWithinRange(current: nat, total: nat)
    requires 0 < total
    requires current <= total
    ensures Filled(current, total) <= BarWidth
    ensures Bar(current, total).Some? && |Bar(current, total).value| == BarWidth
  {
  }
}
