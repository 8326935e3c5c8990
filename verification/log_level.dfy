/** The closed, ordered severity scale of `LogLevel`. */
module Levels {
  import opened Common

  datatype Level = Debug | Info | Warning | Error | Critical

  /** The enum members in declaration order. */
  const AllLevels: seq<Level> := [Debug, Info, Warning, Error, Critical]

  /** The enum's integer value; it is the member's position in declaration order. */
  function Ordinal(l: Level): (n: nat)
    ensures n < |AllLevels| && AllLevels[n] == l
  {
    match l
    case Debug => 0
    case Info => 1
    case Warning => 2
    case Error => 3
    case Critical => 4
  }

  /** A cast from `int` back to the enum; `None` where C# would give an unnamed value. */
  function FromOrdinal(n: int): (r: Option<Level>)
    ensures r.Some? <==> 0 <= n < |AllLevels|
    ensures r.Some? ==> r.value == AllLevels[n]
  {
    if 0 <= n < |AllLevels| then Some(AllLevels[n]) else None
  }

  /** The member name, which the string-enum converter writes on the wire. */
  function Name(l: Level): string {
    match l
    case Debug => "Debug"
    case Info => "Info"
    case Warning => "Warning"
    case Error => "Error"
    case Critical => "Critical"
  }

  function FromName(s: string): (r: Option<Level>)
    ensures r.Some? ==> Name(r.value) == s
  {
    if s == "Debug" then Some(Debug)
    else if s == "Info" then Some(Info)
    else if s == "Warning" then Some(Warning)
    else if s == "Error" then Some(Error)
    else if s == "Critical" then Some(Critical)
    else None
  }

  lemma ExactlyFiveLevels()
    ensures |AllLevels| == 5
    ensures forall l: Level :: l in AllLevels
    ensures forall i, j :: 0 <= i < j < |AllLevels| ==> AllLevels[i] != AllLevels[j]
  {
    forall l: Level
      ensures l in AllLevels
    {
      assert AllLevels[Ordinal(l)] == l;
    }
  }

  /** Declaration order is severity order: ordinals strictly increase along it. */
  lemma OrdinalsIncrease(i: int, j: int)
    requires 0 <= i < j < |AllLevels|
    ensures Ordinal(AllLevels[i]) < Ordinal(AllLevels[j])
  {
  }

  lemma OrdinalRoundTrip(l: Level, n: int)
    ensures FromOrdinal(Ordinal(l)) == Some(l)
    ensures 0 <= n < |AllLevels| ==> Ordinal(FromOrdinal(n).value) == n
  {
  }

  lemma NameRoundTrip(l: Level)
    ensures FromName(Name(l)) == Some(l)
  {
  }

  /** The wire name identifies the level. */
  lemma NamesDistinct(a: Level, b: Level)
    requires Name(a) == Name(b)
    ensures a == b
  {
    NameRoundTrip(a);
    NameRoundTrip(b);
  }
}
