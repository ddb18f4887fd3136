/** The day-4 password rules: the decimal digits of a number never
    decrease from left to right, and at least two adjacent digits are equal. */
module Password {
  import opened Wrappers

  /** The decimal digits of `n`, most significant first; 0 has the single digit 0. */
  function Digits(n: nat): (d: seq<int>)
    ensures 1 <= |d|
    ensures forall i :: 0 <= i < |d| ==> 0 <= d[i] <= 9
    ensures |d| > 1 ==> d[0] != 0
    ensures Value(d) == n
  {
    if n < 10 then [n] else Digits(n / 10) + [n % 10]
  }

  /** The number a digit sequence (most significant first) denotes. */
  function Value(d: seq<int>): int {
    if d == [] then 0 else Value(d[..|d| - 1]) * 10 + d[|d| - 1]
  }

  predicate NeverDecreases(d: seq<int>) {
    forall i :: 0 <= i < |d| - 1 ==> d[i] <= d[i + 1]
  }

  predicate HasDouble(d: seq<int>) {
    exists i :: 0 <= i < |d| - 1 && d[i] == d[i + 1]
  }

  /** The password rules, without the six-digit rule and the range rule. */
  predicate IsValidPassword(n: nat) {
    NeverDecreases(Digits(n)) && HasDouble(Digits(n))
  }

  /** The valid numbers of `[start, end)`, in ascending order. */
  function ValidInRange(start: nat, end: nat): (r: seq<nat>)
    ensures forall i :: 0 <= i < |r| ==> start <= r[i] < end && IsValidPassword(r[i])
    decreases end
  {
    if end <= start then []
    else ValidInRange(start, end - 1) + (if IsValidPassword(end - 1) then [end - 1] else [])
  }

  /** Walks the digits left to right, remembering the previous digit and
      whether an equal pair has been seen; a decreasing pair ends the walk. */
  method ValidPassword(number: nat) returns (ok: bool)
    ensures ok <==> IsValidPassword(number)
  {
    var split := Digits(number);
    var previous := split[0];
    var double := false;
    for i := 1 to |split|
      invariant previous == split[i - 1]
      invariant NeverDecreases(split[..i])
      invariant double <==> HasDouble(split[..i])
    {
      var digit := split[i];
      if previous == digit {
        double := true;
      }
      if previous > digit {
        assert !NeverDecreases(split);
        return false;
      }
      assert split[..i + 1][..i] == split[..i];
      previous := digit;
    }
    assert split[..|split|] == split;
    ok := double;
  }

  /** The valid numbers of `[start, end)`, collected in ascending order.
      A range with `end <= start` fails the source's assertion: `None`. */
  method TryRange(start: nat, end: nat) returns (valid: Option<seq<nat>>)
    ensures valid.None? <==> end <= start
    ensures valid.Some? ==> valid.value == ValidInRange(start, end)
    ensures valid.Some? ==> forall n :: n in valid.value <==> start <= n < end && IsValidPassword(n)
    ensures valid.Some? ==> forall i, j :: 0 <= i < j < |valid.value| ==> valid.value[i] < valid.value[j]
    ensures valid.Some? ==> |valid.value| <= end - start
  {
    if end <= start {
      return None;
    }
    var found := [];
    for number := start to end
      invariant found == ValidInRange(start, number)
    {
      var ok := ValidPassword(number);
      if ok {
        found := found + [number];
      }
    }
    ValidInRangeMembers(start, end);
    ValidInRangeAscending(start, end);
    ValidInRangeLength(start, end);
    valid := Some(found);
  }

  /** `ValidInRange` holds the valid numbers of the range and nothing else. */
  lemma {:induction false} ValidInRangeMembers(start: nat, end: nat)
    ensures forall n :: n in ValidInRange(start, end) <==> start <= n < end && IsValidPassword(n)
    decreases end
  {
    if end > start {
      ValidInRangeMembers(start, end - 1);
    }
  }

  /** `ValidInRange` is strictly increasing, so it holds no duplicates. */
  lemma {:induction false} ValidInRangeAscending(start: nat, end: nat)
    ensures forall i, j :: 0 <= i < j < |ValidInRange(start, end)| ==> ValidInRange(start, end)[i] < ValidInRange(start, end)[j]
    decreases end
  {
    if end > start {
      var prev := ValidInRange(start, end - 1);
      ValidInRangeAscending(start, end - 1);
      ValidInRangeMembers(start, end - 1);
      assert forall i :: 0 <= i < |prev| ==> prev[i] in prev;
      var r := ValidInRange(start, end);
      assert r == prev || r == prev + [end - 1];
    }
  }

  /** `ValidInRange` is no longer than the range. */
  lemma {:induction false} ValidInRangeLength(start: nat, end: nat)
    ensures |ValidInRange(start, end)| <= if end <= start then 0 else end - start
    decreases end
  {
    if end > start {
      ValidInRangeLength(start, end - 1);
    }
  }

  /** A number with a decreasing adjacent pair of digits is never valid,
      whatever the other digits are. */
  lemma DecreasingPairRejects(n: nat, i: nat)
    requires i + 1 < |Digits(n)| && Digits(n)[i] > Digits(n)[i + 1]
    ensures !IsValidPassword(n)
  {
  }

  /** A one-digit number has no adjacent pair, so it is never valid. */
  lemma SingleDigitRejected(n: nat)
    requires n < 10
    ensures !IsValidPassword(n)
  {
  }

  /** The smallest number that meets the rules is 11: a one-digit number
      has no pair, and the digits of 10 decrease. */
  lemma ValidAtLeast11(n: nat)
    ensures IsValidPassword(n) ==> 11 <= n
  {
    if n == 10 {
      DigitsSplit(10, 1, 0);
    }
  }

  /** Peels the last digit off a number with more than one digit. */
  lemma DigitsSplit(n: nat, q: nat, r: nat)
    requires n >= 10 && q == n / 10 && r == n % 10
    ensures Digits(n) == Digits(q) + [r]
  {
  }

  /** 111111 has equal neighbours and never decreases, so it is valid. */
  lemma AcceptedExample()
    ensures IsValidPassword(111111)
  {
    DigitsSplit(11, 1, 1);
    DigitsSplit(111, 11, 1);
    DigitsSplit(1111, 111, 1);
    DigitsSplit(11111, 1111, 1);
    DigitsSplit(111111, 11111, 1);
    var d := Digits(111111);
    assert d == [1, 1, 1, 1, 1, 1];
    assert d[0] == d[1];
  }

  /** 223450 ends in the decreasing pair 5, 0, so it is invalid. */
  lemma RejectedExample()
    ensures !IsValidPassword(223450)
  {
    DigitsSplit(22, 2, 2);
    DigitsSplit(223, 22, 3);
    DigitsSplit(2234, 223, 4);
    DigitsSplit(22345, 2234, 5);
    DigitsSplit(223450, 22345, 0);
    var d := Digits(223450);
    assert d == [2, 2, 3, 4, 5, 0];
    assert d[4] > d[5];
  }
}
