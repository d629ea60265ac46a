/**
 * The officer's dashboard: the month's cases counted by incident type, and
 * the cases per address behind the line chart.
 */
module AdminDashboard {
  import opened Js
  import Firestore

  /** The part of a case document the dashboard reads; `formData` may be missing. */
  datatype User = User(id: string, createdAt: int, formData: Option<Firestore.Fields>)

  const Rape := "Rape"
  const PhysicalAbuse := "Physical Abuse"
  const Neglect := "Neglect"

  /** `formData.incidenttype`, "" when either is missing. */
  function TypeOf(u: User): string
  {
    if u.formData.None? then "" else Firestore.Get(u.formData.value, "incidenttype")
  }

  /** `formData.address`, "" when either is missing. */
  function AddressOf(u: User): string
  {
    if u.formData.None? then "" else Firestore.Get(u.formData.value, "address")
  }

  /** The number of users whose incident type is exactly t. */
  function CountType(us: seq<User>, t: string): (n: nat)
    ensures n <= |us|
  {
    if us == [] then 0
    else CountType(us[..|us| - 1], t) + (if TypeOf(us[|us| - 1]) == t then 1 else 0)
  }

  predicate Known(t: string)
  {
    t == Rape || t == PhysicalAbuse || t == Neglect
  }

  /** The number of users counted by none of the three counters. */
  function CountOther(us: seq<User>): (n: nat)
    ensures n <= |us|
  {
    if us == [] then 0
    else CountOther(us[..|us| - 1]) + (if Known(TypeOf(us[|us| - 1])) then 0 else 1)
  }

  /**
   * The `forEach` in `fetchMonthlyIncidents`: each case adds one to at most
   * one counter, chosen by the exact type string.
   */
  method CountIncidents(users: seq<User>) returns (rape: nat, abuse: nat, neglect: nat)
    ensures rape == CountType(users, Rape)
    ensures abuse == CountType(users, PhysicalAbuse)
    ensures neglect == CountType(users, Neglect)
  {
    rape, abuse, neglect := 0, 0, 0;
    var i := 0;
    while i < |users|
      invariant 0 <= i <= |users|
      invariant rape == CountType(users[..i], Rape)
      invariant abuse == CountType(users[..i], PhysicalAbuse)
      invariant neglect == CountType(users[..i], Neglect)
    {
      assert users[..i + 1][..i] == users[..i];
      var u := users[i];
      if u.formData.Some? && Firestore.Get(u.formData.value, "incidenttype") != "" {
        var t := Firestore.Get(u.formData.value, "incidenttype");
        if t == Rape {
          rape := rape + 1;
        } else if t == PhysicalAbuse {
          abuse := abuse + 1;
        } else if t == Neglect {
          neglect := neglect + 1;
        }
      }
      i := i + 1;
    }
    assert users[..i] == users;
  }

  /** Every case falls under exactly one of the three counters or under none. */
  lemma {:induction false} CountsAddUp(us: seq<User>)
    ensures CountType(us, Rape) + CountType(us, PhysicalAbuse) + CountType(us, Neglect) + CountOther(us) == |us|
    decreases |us|
  {
    if us != [] {
      CountsAddUp(us[..|us| - 1]);
    }
  }

  /** No case is left uncounted exactly when every case has one of the three types. */
  lemma {:induction false} NoOtherIffAllKnown(us: seq<User>)
    ensures CountOther(us) == 0 <==> forall i :: 0 <= i < |us| ==> Known(TypeOf(us[i]))
    decreases |us|
  {
    if us != [] {
      var init := us[..|us| - 1];
      NoOtherIffAllKnown(init);
      if CountOther(us) == 0 {
        forall i | 0 <= i < |us| ensures Known(TypeOf(us[i])) {
          if i < |init| { assert us[i] == init[i]; }
        }
      } else if CountOther(init) != 0 {
        var i :| 0 <= i < |init| && !Known(TypeOf(init[i]));
        assert us[i] == init[i];
      }
    }
  }

  /** The displayed total is at most the number of cases, and equal exactly when all have a counted type. */
  lemma DisplayedTotal(us: seq<User>)
    ensures var total := CountType(us, Rape) + CountType(us, PhysicalAbuse) + CountType(us, Neglect);
      total <= |us| && (total == |us| <==> forall i :: 0 <= i < |us| ==> Known(TypeOf(us[i])))
  {
    CountsAddUp(us);
    NoOtherIffAllKnown(us);
  }

  // ---------------------------------------------------------------------
  // Cases per address

  /** The number of users with exactly this address. */
  function CountAddress(us: seq<User>, a: string): (n: nat)
    ensures n <= |us|
  {
    if us == [] then 0
    else CountAddress(us[..|us| - 1], a) + (if AddressOf(us[|us| - 1]) == a then 1 else 0)
  }

  /** The number of users with a non-empty address. */
  function CountNonEmpty(us: seq<User>): (n: nat)
    ensures n <= |us|
  {
    if us == [] then 0
    else CountNonEmpty(us[..|us| - 1]) + (if AddressOf(us[|us| - 1]) != "" then 1 else 0)
  }

  ghost predicate Distinct(keys: seq<string>)
  {
    forall x, y :: 0 <= x < y < |keys| ==> keys[x] != keys[y]
  }

  /** The sum of the tallies of the keys. */
  function SumOver(keys: seq<string>, m: map<string, nat>): nat
    requires forall k :: k in keys ==> k in m
  {
    if keys == [] then 0 else SumOver(keys[..|keys| - 1], m) + m[keys[|keys| - 1]]
  }

  /** Changing a tally outside the keys leaves their sum alone. */
  lemma {:induction false} SumOverFrame(keys: seq<string>, m: map<string, nat>, a: string, v: nat)
    requires forall k :: k in keys ==> k in m
    requires a !in keys
    ensures SumOver(keys, m[a := v]) == SumOver(keys, m)
    decreases |keys|
  {
    if keys != [] {
      assert keys[|keys| - 1] in keys;
      var init := keys[..|keys| - 1];
      assert forall k :: k in init ==> k in keys;
      SumOverFrame(init, m, a, v);
    }
  }

  /** Adding one to the tally of one of the (distinct) keys adds one to their sum. */
  lemma {:induction false} SumOverBump(keys: seq<string>, m: map<string, nat>, a: string)
    requires forall k :: k in keys ==> k in m
    requires Distinct(keys) && a in keys
    ensures SumOver(keys, m[a := m[a] + 1]) == SumOver(keys, m) + 1
    decreases |keys|
  {
    var init, last := keys[..|keys| - 1], keys[|keys| - 1];
    assert forall k :: k in init ==> k in keys;
    if last == a {
      assert a !in init by {
        forall x | 0 <= x < |init| ensures init[x] != a {
          assert init[x] == keys[x];
        }
      }
      SumOverFrame(init, m, a, m[a] + 1);
    } else {
      assert a in init by {
        var x :| 0 <= x < |keys| && keys[x] == a;
        assert init[x] == a;
      }
      assert Distinct(init) by {
        forall x, y | 0 <= x < y < |init| ensures init[x] != init[y] {
          assert init[x] == keys[x] && init[y] == keys[y];
        }
      }
      SumOverBump(init, m, a);
    }
  }

  /** The tally of the cases and its keys in first-appearance order, case by case. */
  function Tally(us: seq<User>): (r: (map<string, nat>, seq<string>))
  {
    if us == [] then (map[], [])
    else
      var prev := Tally(us[..|us| - 1]);
      var a := AddressOf(us[|us| - 1]);
      if a == "" then prev
      else if a in prev.0 then (prev.0[a := prev.0[a] + 1], prev.1)
      else (prev.0[a := 1], prev.1 + [a])
  }

  /**
   * The tally counts each non-empty address exactly, lists each of its
   * addresses once, and its counts add up to the cases with an address.
   */
  lemma {:induction false} TallyCounts(us: seq<User>)
    ensures var (tally, keys) := Tally(us);
      && (forall a :: a in tally <==> a in keys)
      && Distinct(keys)
      && (forall a :: a in tally <==> a != "" && CountAddress(us, a) > 0)
      && (forall a :: a in tally ==> tally[a] == CountAddress(us, a))
      && SumOver(keys, tally) == CountNonEmpty(us)
    decreases |us|
  {
    if us != [] {
      var init := us[..|us| - 1];
      TallyCounts(init);
      var (tally, keys) := Tally(init);
      var a := AddressOf(us[|us| - 1]);
      if a != "" {
        if a in tally {
          SumOverBump(keys, tally, a);
        } else {
          SumOverFrame(keys, tally, a, 1);
          assert (keys + [a])[..|keys|] == keys;
        }
      }
    }
  }

  /**
   * The `forEach` in `fetchUsersAndIncidents`: counts the cases per
   * non-empty address, the keys in the order the addresses first appear.
   * A case without `formData` throws, which ends the fetch with no tally
   * (`ok` false).
   */
  method TallyAddresses(users: seq<User>) returns (ok: bool, tally: map<string, nat>, keys: seq<string>)
    ensures ok <==> forall i :: 0 <= i < |users| ==> users[i].formData.Some?
    ensures ok ==> (tally, keys) == Tally(users)
  {
    tally, keys := map[], [];
    var i := 0;
    while i < |users|
      invariant 0 <= i <= |users|
      invariant forall j :: 0 <= j < i ==> users[j].formData.Some?
      invariant (tally, keys) == Tally(users[..i])
    {
      var u := users[i];
      if u.formData.None? {
        ok := false;
        return;
      }
      assert users[..i + 1][..i] == users[..i];
      var address := Firestore.Get(u.formData.value, "address");
      if address != "" {
        if address in tally {
          tally := tally[address := tally[address] + 1];
        } else {
          keys := keys + [address];
          tally := tally[address := 1];
        }
      }
      i := i + 1;
    }
    assert users[..i] == users;
    ok := true;
  }

  /** The chart's two arrays: `Object.keys` and `Object.values` of the tally. */
  function Chart(tally: map<string, nat>, keys: seq<string>): (chart: (seq<string>, seq<nat>))
    requires forall k :: k in keys ==> k in tally
    ensures |chart.0| == |chart.1| == |keys|
    ensures forall i :: 0 <= i < |keys| ==> chart.0[i] == keys[i] && chart.1[i] == tally[keys[i]]
  {
    (keys, seq(|keys|, i requires 0 <= i < |keys| => tally[keys[i]]))
  }

  class Dashboard {
    var rape: nat
    var abuse: nat
    var neglect: nat
    var addresses: seq<string>
    var counts: seq<nat>
    var error: string

    constructor ()
      ensures rape == 0 && abuse == 0 && neglect == 0 && addresses == [] && counts == [] && error == ""
    {
      rape, abuse, neglect := 0, 0, 0;
      addresses, counts, error := [], [], "";
    }

    /** The "Monthly Incidents" figure. */
    function Total(): nat
      reads this`rape, this`abuse, this`neglect
    {
      rape + abuse + neglect
    }

    /** `fetchMonthlyIncidents`; None is a failed or unauthenticated query. */
    method FetchMonthlyIncidents(users: Option<seq<User>>)
      modifies this`rape, this`abuse, this`neglect, this`error
      ensures users.None? ==> error == "Failed to fetch data" && rape == old(rape) && abuse == old(abuse) && neglect == old(neglect)
      ensures users.Some? ==> error == old(error)
      ensures users.Some? ==> rape == CountType(users.value, Rape)
      ensures users.Some? ==> abuse == CountType(users.value, PhysicalAbuse)
      ensures users.Some? ==> neglect == CountType(users.value, Neglect)
      ensures users.Some? ==> Total() <= |users.value|
    {
      if users.None? {
        error := "Failed to fetch data";
        return;
      }
      rape, abuse, neglect := CountIncidents(users.value);
      DisplayedTotal(users.value);
    }

    /** `fetchUsersAndIncidents`; None is a failed or unauthenticated query. */
    method FetchUsersAndIncidents(users: Option<seq<User>>)
      modifies this`addresses, this`counts, this`error
      ensures var complete := users.Some? && forall i :: 0 <= i < |users.value| ==> users.value[i].formData.Some?;
        && (!complete ==> error == "Failed to fetch data" && addresses == old(addresses) && counts == old(counts))
        && (complete ==>
             && error == old(error) && |addresses| == |counts|
             && (forall a :: a in addresses <==> a != "" && CountAddress(users.value, a) > 0)
             && (forall i :: 0 <= i < |addresses| ==> counts[i] == CountAddress(users.value, addresses[i]))
             && Distinct(addresses))
    {
      if users.None? {
        error := "Failed to fetch data";
        return;
      }
      var ok, tally, keys := TallyAddresses(users.value);
      if !ok {
        error := "Failed to fetch data";
        return;
      }
      TallyCounts(users.value);
      var chart := Chart(tally, keys);
      addresses, counts := chart.0, chart.1;
    }
  }
}
