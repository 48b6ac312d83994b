/**
 * The six-character degree-of-freedom strings of autorobot/releases.py and
 * autorobot/supports.py, such as "111000" for a pin: characters 0..5 stand for UX, UY, UZ,
 * RX, RY and RZ, each read with `int(...)`.
 */
module Dofs {
  import opened Errors
  import opened PyText

  /** The six degrees of freedom, in string order. */
  datatype Dof = UX | UY | UZ | RX | RY | RZ

  /** The position of a degree of freedom in a DOF string. */
  function Position(d: Dof): (i: nat)
    ensures i < 6
  {
    match d
    case UX => 0
    case UY => 1
    case UZ => 2
    case RX => 3
    case RY => 4
    case RZ => 5
  }

  /** The degree of freedom at position `i`. */
  function DofAt(i: nat): (d: Dof)
    requires i < 6
    ensures Position(d) == i
  {
    [UX, UY, UZ, RX, RY, RZ][i]
  }

  /**
   * The first position of `s` that `int(s[i])` cannot read, or 6 if positions 0..5 all
   * hold a decimal digit.
   */
  function FirstBad(s: string, i: nat): (j: nat)
    requires i <= 6
    ensures i <= j <= 6
    ensures i < j ==> j <= |s|
    ensures forall p :: i <= p < j ==> IsDigit(s[p])
    ensures j < 6 ==> j >= |s| || !IsDigit(s[j])
    decreases 6 - i
  {
    if i == 6 || i >= |s| || !IsDigit(s[i]) then i else FirstBad(s, i + 1)
  }

  /** `int(s[i])` for positions `i` up to 5, in order, stopping at the first failure. */
  function DigitsFrom(s: string, i: nat): (r: Result<seq<nat>>)
    requires i <= 6
    ensures r.Ok? <==> FirstBad(s, i) == 6
    ensures r.Ok? ==> (&& |r.value| == 6 - i
                       && forall k :: 0 <= k < 6 - i ==>
                            i + k < |s| && IsDigit(s[i + k]) && r.value[k] == DigitValue(s[i + k]))
    ensures r.Err? ==> r.error == (if FirstBad(s, i) >= |s| then IndexError else ValueError)
    decreases 6 - i
  {
    if i == 6 then Ok([])
    else if i >= |s| then Err(IndexError)
    else
      match ParseDigit(s[i])
      case Err(e) => Err(e)
      case Ok(d) =>
        match DigitsFrom(s, i + 1)
        case Err(e) => Err(e)
        case Ok(ds) =>
          var r := [d] + ds;
          assert forall k :: 1 <= k < 6 - i ==> r[k] == ds[k - 1];
          Ok(r)
  }

  /**
   * The six digits of a DOF string. The first position that is missing raises IndexError,
   * the first that is not a digit raises ValueError; characters after the sixth are
   * never read.
   */
  function DofDigits(s: string): (r: Result<seq<nat>>)
    ensures r.Ok? <==> |s| >= 6 && forall i :: 0 <= i < 6 ==> IsDigit(s[i])
    ensures r.Ok? ==> |r.value| == 6 && forall i :: 0 <= i < 6 ==> r.value[i] == DigitValue(s[i])
    ensures r.Err? ==> exists j :: (&& 0 <= j < 6
                                    && (forall p :: 0 <= p < j ==> p < |s| && IsDigit(s[p]))
                                    && (if j >= |s| then r.error == IndexError
                                        else !IsDigit(s[j]) && r.error == ValueError))
  {
    var r := DigitsFrom(s, 0);
    if r.Err? then
      var j := FirstBad(s, 0);
      assert 0 <= j < 6 && (j < |s| ==> !IsDigit(s[j]));
      assert forall p :: 0 <= p < j ==> p < |s| && IsDigit(s[p]);
      assert if j >= |s| then r.error == IndexError else !IsDigit(s[j]) && r.error == ValueError;
      assert (&& 0 <= j < 6
              && (forall p :: 0 <= p < j ==> p < |s| && IsDigit(s[p]))
              && (if j >= |s| then r.error == IndexError
                  else !IsDigit(s[j]) && r.error == ValueError));
      r
    else
      r
  }

  lemma {:induction false} DigitsFromPrefix(s: string, t: string, i: nat)
    requires i <= 6 && |s| >= 6 && |t| >= 6 && s[..6] == t[..6]
    ensures DigitsFrom(s, i) == DigitsFrom(t, i)
    decreases 6 - i
  {
    if i < 6 {
      assert s[i] == s[..6][i] == t[..6][i] == t[i];
      DigitsFromPrefix(s, t, i + 1);
    }
  }

  /** Characters after the sixth are ignored. */
  lemma ExtraCharactersIgnored(s: string)
    requires |s| >= 6
    ensures DofDigits(s) == DofDigits(s[..6])
  {
    assert s[..6][..6] == s[..6];
    DigitsFromPrefix(s, s[..6], 0);
  }
}
