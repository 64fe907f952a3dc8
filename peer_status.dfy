/**
 * The peer status enumeration. Its constants are filled in by a `for..in` loop
 * over the name table, whose keys are the string forms of the positions, so
 * `PeerStatus.NEW` is the string "1", and `toString` looks the stored value up
 * in the table as an array index.
 */
module PeerStatuses {
  import opened Wrappers
  import opened Addresses

  const Statuses: seq<string> :=
    ["UNDEFINED", "NEW", "CONNECTING", "CONNECTED", "ACTIVE", "FAILED", "DISCONNECTED", "BANNED"]

  /** A stored status: any JavaScript value; a number or a string key is modelled. */
  datatype StatusValue = Index(n: int) | Key(s: string)

  /** The decimal string of a position below ten, as `for..in` produces it. */
  function DigitKey(i: nat): (r: string)
    requires i < 10
    ensures |r| == 1 && r[0] as int == '0' as int + i
  {
    [(('0' as int) + i) as char]
  }

  /** The position a key denotes when used as an index into the table, if any. */
  function KeyIndex(s: string): (r: Option<nat>)
    ensures r.Some? ==> r.value < |Statuses| && s == DigitKey(r.value)
    ensures (exists i :: 0 <= i < |Statuses| && s == DigitKey(i)) ==> r.Some?
  {
    if |s| == 1 && '0' <= s[0] <= '7' then Some((s[0] as int - '0' as int) as nat) else None
  }

  /** `statuses[value]`: the name at that index, or undefined. */
  function NameOf(v: StatusValue): (r: Option<string>)
    ensures r.Some? ==> r.value in Statuses
  {
    match v
    case Index(n) => if 0 <= n < |Statuses| then Some(Statuses[n]) else None
    case Key(s) => if KeyIndex(s).Some? then Some(Statuses[KeyIndex(s).value]) else None
  }

  /** The for..in loop: every name becomes a constant holding its position's key. */
  method PopulateConstants() returns (constants: map<string, StatusValue>)
    ensures forall name :: name in constants <==> name in Statuses
    ensures forall i :: 0 <= i < |Statuses| ==> constants[Statuses[i]] == Key(DigitKey(i))
    ensures forall name :: name in constants ==> NameOf(constants[name]) == Some(name)
  {
    StatusNamesDistinct();
    constants := map[];
    var i := 0;
    while i < |Statuses|
      invariant 0 <= i <= |Statuses|
      invariant forall name :: name in constants ==> name in Statuses[..i]
      invariant forall j :: 0 <= j < i ==> Statuses[j] in constants && constants[Statuses[j]] == Key(DigitKey(j))
    {
      assert Statuses[..i + 1] == Statuses[..i] + [Statuses[i]];
      constants := constants[Statuses[i] := Key(DigitKey(i))];
      i := i + 1;
    }
    assert Statuses[..i] == Statuses;
    forall name | name in constants
      ensures NameOf(constants[name]) == Some(name)
    {
      var j :| 0 <= j < |Statuses| && Statuses[j] == name;
      NameOfConstant(j);
    }
  }

  /** The names are pairwise distinct, so name and position determine each other. */
  lemma StatusNamesDistinct()
    ensures forall i, j :: 0 <= i < j < |Statuses| ==> Statuses[i] != Statuses[j]
  {
  }

  /** `toString` inverts the constants: a position's key maps back to its name. */
  lemma {:induction false} NameOfConstant(i: nat)
    requires i < |Statuses|
    ensures NameOf(Key(DigitKey(i))) == Some(Statuses[i])
    ensures NameOf(Key(DigitKey(i))) == NameOf(Index(i))
  {
    assert KeyIndex(DigitKey(i)) == Some(i);
  }

  /** Two statuses with the same name are the same status. */
  lemma NameOfInjective(i: nat, j: nat)
    requires i < |Statuses| && j < |Statuses|
    requires NameOf(Key(DigitKey(i))) == NameOf(Key(DigitKey(j)))
    ensures i == j
  {
    NameOfConstant(i);
    NameOfConstant(j);
    StatusNamesDistinct();
  }

  /** The status record attached to a peer address: an unchecked, mutable value. */
  class PeerStatus {
    const peerAddress: Option<PeerAddress>
    var status: StatusValue

    constructor (peerAddress: Option<PeerAddress>)
      ensures this.peerAddress == peerAddress
      ensures status == Key(DigitKey(0)) && NameOf(status) == Some("UNDEFINED")
    {
      this.peerAddress := peerAddress;
      status := Key(DigitKey(0));
      assert KeyIndex(DigitKey(0)) == Some(0);
    }

    /** The setter stores any value without checking it. */
    method SetStatus(newStatus: StatusValue)
      modifies this
      ensures status == newStatus
    {
      status := newStatus;
    }

    function Status(): StatusValue
      reads this
    {
      status
    }

    /** The name of the stored status: a constant's key or a position gives the name there. */
    function ToString(): (r: Option<string>)
      reads this
      ensures r.Some? ==> r.value in Statuses
      ensures forall i :: 0 <= i < |Statuses| && status == Key(DigitKey(i)) ==> r == Some(Statuses[i])
      ensures forall i :: 0 <= i < |Statuses| && status == Index(i) ==> r == Some(Statuses[i])
    {
      NameOf(status)
    }
  }
}
