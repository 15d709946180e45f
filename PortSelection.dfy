/**
 * The start-up choice of serial port: among the enumerated port names that
 * start with "COM", the one whose number after "COM" is largest, the
 * earliest of them on a tie.
 */
module PortSelection {
  import opened NumberText

  /** `portName.startsWith("COM")`, case-sensitive. */
  predicate IsComName(s: string)
    ensures IsComName(s) <==> |s| >= 3 && s == "COM" + s[3..]
  {
    |s| >= 3 && s[..3] == "COM"
  }

  /** `portName.mid(3).toInt()`: the number after the first three characters. */
  function PortNumber(s: string): (n: int)
    requires |s| >= 3
    ensures InInt32(n)
    ensures |s| == 3 ==> n == 0
  {
    ToInt(s[3..])
  }

  /**
   * `r` is the COM name at some position `k` of `names` whose number no COM
   * name of the list exceeds, and every COM name before `k` has a smaller number.
   */
  ghost predicate IsHighestPort(names: seq<string>, r: string) {
    exists k :: 0 <= k < |names| && names[k] == r && IsHighestAt(names, k)
  }

  ghost predicate IsHighestAt(names: seq<string>, k: int)
    requires 0 <= k < |names|
  {
    && IsComName(names[k])
    && (forall j :: 0 <= j < |names| && IsComName(names[j]) ==> PortNumber(names[j]) <= PortNumber(names[k]))
    && (forall j :: 0 <= j < k && IsComName(names[j]) ==> PortNumber(names[j]) < PortNumber(names[k]))
  }

  /** The selection loop of the constructor: "" when no name starts with "COM". */
  method SelectPort(names: seq<string>) returns (highest: string)
    ensures highest == "" <==> forall i :: 0 <= i < |names| ==> !IsComName(names[i])
    ensures highest != "" ==> IsHighestPort(names, highest)
  {
    highest := "";
    ghost var at := -1;
    for i := 0 to |names|
      invariant highest == "" <==> forall j :: 0 <= j < i ==> !IsComName(names[j])
      invariant highest != "" ==> 0 <= at < i && names[at] == highest && IsComName(highest)
      invariant highest != "" ==>
        forall j :: 0 <= j < i && IsComName(names[j]) ==> PortNumber(names[j]) <= PortNumber(highest)
      invariant highest != "" ==>
        forall j :: 0 <= j < at && IsComName(names[j]) ==> PortNumber(names[j]) < PortNumber(highest)
    {
      var portName := names[i];
      if IsComName(portName) {
        if highest == "" || PortNumber(portName) > PortNumber(highest) {
          highest := portName;
          at := i;
        }
      }
    }
    assert highest != "" ==> IsHighestAt(names, at);
  }

  /** At most one name meets the selection's description, so it fixes the chosen port. */
  lemma HighestPortUnique(names: seq<string>, a: string, b: string)
    requires IsHighestPort(names, a) && IsHighestPort(names, b)
    ensures a == b
  {
  }
}
