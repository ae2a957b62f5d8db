/** A ship's links to other ships and to governments: the escort list it
    appends to and erases from, and the license table looked up with a
    fallback to the licenses every government requires. */
module Links {
  import opened Basics

  /** An escort entry is a weak reference: it names a ship, or it has
      expired (`None`). */
  type Escort = Option<ShipId>

  /** The position of the first entry equal to `x`. */
  function FirstIndex(s: seq<Escort>, x: Escort): (i: nat)
    requires x in s
    ensures i < |s| && s[i] == x && x !in s[..i]
    decreases |s|
  {
    if s[0] == x then 0
    else
      var j := FirstIndex(s[1..], x);
      assert s[..j + 1] == [s[0]] + s[1..][..j];
      j + 1
  }

  /** The list without the first entry equal to `x`; the list itself when
      there is none. */
  function RemoveFirst(s: seq<Escort>, x: Escort): (r: seq<Escort>)
    ensures x !in s ==> r == s
    ensures x in s ==> |r| == |s| - 1
    ensures multiset(r) == multiset(s) - multiset{x}
    ensures x in s ==> exists i :: 0 <= i < |s| && s[i] == x && x !in s[..i] && r == s[..i] + s[i + 1..]
  {
    if x in s then
      var i := FirstIndex(s, x);
      assert s == s[..i] + [x] + s[i + 1..];
      s[..i] + s[i + 1..]
    else
      s
  }

  /** Appending an escort that was not in the list and then removing it
      gives back the list. */
  lemma {:induction false} AddThenRemove(s: seq<Escort>, x: Escort)
    requires x !in s
    ensures RemoveFirst(s + [x], x) == s
    decreases |s|
  {
    if s == [] {
      assert [] + [x] == [x];
    } else {
      assert (s + [x])[1..] == s[1..] + [x];
      AddThenRemove(s[1..], x);
    }
  }

  /** The license table maps a government (or no government: the universal
      entry) to the license names it requires. */
  type LicenseTable = map<Option<GovernmentId>, seq<string>>

  /** The licenses needed for `government`: its own entry if it has one,
      otherwise the universal entry, otherwise none. */
  function LicenseLookup(table: LicenseTable, government: Option<GovernmentId>): (r: seq<string>)
    ensures government in table ==> r == table[government]
    ensures government !in table && None in table ==> r == table[None]
    ensures government !in table && None !in table ==> r == []
  {
    if government in table then table[government]
    else if None in table then table[None]
    else []
  }

  /** Every government without an entry of its own needs exactly the
      universal licenses; a government's own entry overrides them. */
  lemma FallbackIsUniversal(table: LicenseTable, g: Option<GovernmentId>, licenses: seq<string>)
    ensures g !in table ==> LicenseLookup(table, g) == LicenseLookup(table, None)
    ensures LicenseLookup(table[g := licenses], g) == licenses
  {
  }
}
