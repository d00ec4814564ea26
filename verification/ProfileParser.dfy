/** The validator: from a text and what the JSON parser makes of it to a profile, or none. */
module ProfileParser {
  import opened JsonTrees
  import opened Profiles
  import Nesting

  datatype Option<T> = None | Some(value: T)

  lemma {:induction false} WaitsGrow(nodes: nat, peripherals: Json, phase: Phase, items: seq<Json>, i: nat)
    requires nodes <= MAX_NODES && i <= |items|
    requires forall j | 0 <= j < |items| :: OpOk(nodes, peripherals, phase, items[j])
    ensures Waits(items[..i]) <= Waits(items)
  {
    if i < |items| {
      var most := items[..|items| - 1];
      WaitsGrow(nodes, peripherals, phase, most, i);
      assert most[..i] == items[..i];
      assert OpOk(nodes, peripherals, phase, items[|items| - 1]);
    } else {
      assert items[..i] == items;
    }
  }

  lemma OverBudget(nodes: nat, peripherals: Json, phase: Phase, ops: Json, i: nat)
    requires nodes <= MAX_NODES && ops.Array? && i <= |ops.items| && Waits(ops.items[..i]) > MAX_WAIT
    ensures !SequenceOk(nodes, peripherals, phase, ops)
  {
    if SequenceOk(nodes, peripherals, phase, ops) {
      WaitsGrow(nodes, peripherals, phase, ops.items, i);
    }
  }

  lemma {:induction false} CountGrows(d: Json, j: nat, k: nat)
    requires j <= k <= 5
    ensures OpCount(d, j) <= OpCount(d, k)
  {
    if j < k {
      CountGrows(d, j, k - 1);
    }
  }

  method CheckNodes(nodes: Json) returns (ok: bool)
    requires nodes.Array?
    ensures ok <==> forall i | 0 <= i < |nodes.items| :: NodeOk(nodes.items[i])
  {
    for i := 0 to |nodes.items|
      invariant forall j | 0 <= j < i :: NodeOk(nodes.items[j])
    {
      if !NodeOk(nodes.items[i]) {
        return false;
      }
    }
    return true;
  }

  method CheckPeripherals(nodes: nat, ps: Json) returns (ok: bool)
    requires ps.Object?
    ensures ok <==> PeripheralsOk(nodes, ps)
  {
    var names := ps.members.Keys;
    while names != {}
      invariant names <= ps.members.Keys
      invariant forall name | name in ps.members.Keys - names :: PeripheralOk(nodes, name, ps.members[name])
      decreases |names|
    {
      var name :| name in names;
      if !PeripheralOk(nodes, name, ps.members[name]) {
        return false;
      }
      names := names - {name};
    }
    return true;
  }

  /** The operations of one phase, counted together with the `before` operations of earlier phases. */
  method CheckSequence(nodes: nat, peripherals: Json, phase: Phase, ops: Json, before: nat)
    returns (ok: bool, count: nat)
    requires nodes <= MAX_NODES && before <= MAX_OPS
    ensures ok <==> SequenceOk(nodes, peripherals, phase, ops) && before + Size(ops) <= MAX_OPS
    ensures ok ==> count == before + Size(ops)
  {
    count := before;
    if !ops.Array? || ops.items == [] {
      return false, count;
    }
    var budget := 0;
    for i := 0 to |ops.items|
      invariant count == before + i <= MAX_OPS
      invariant forall j {:trigger OpOk(nodes, peripherals, phase, ops.items[j])} | 0 <= j < i ::
                  OpOk(nodes, peripherals, phase, ops.items[j])
      invariant budget == Waits(ops.items[..i]) <= MAX_WAIT
    {
      var o := ops.items[i];
      count := count + 1;
      if count > MAX_OPS || !OpOk(nodes, peripherals, phase, o) {
        return false, count;
      }
      assert ops.items[..i + 1][..i] == ops.items[..i];
      budget := budget + Wait(o);
      if budget > MAX_WAIT {
        OverBudget(nodes, peripherals, phase, ops, i + 1);
        return false, count;
      }
    }
    assert ops.items[..|ops.items|] == ops.items;
    return true, count;
  }

  /** The profile in a text of which the JSON parser makes `parsed`, if there is one. */
  function Parsed(text: string, parsed: Option<Json>): (profile: Option<Profile>)
    ensures profile.Some? ==> Valid(profile.value)
  {
    if |text| <= Nesting.MAX_SIZE && Nesting.Scan(Nesting.START, text).Scanning? && parsed.Some? &&
        Accepts(parsed.value) then
      AcceptedIsValid(parsed.value);
      Some(ProfileOf(parsed.value))
    else None
  }

  method ParseProfile(text: string, parsed: Option<Json>) returns (profile: Option<Profile>)
    ensures profile == Parsed(text, parsed)
  {
    var scanned, fits := Nesting.Prescan(text);
    if !fits || !scanned.Scanning? || parsed.None? {
      return None;
    }
    var d := parsed.value;
    if !HeaderOk(d) || !NodesCount(d) {
      return None;
    }
    var nodes, peripherals := Size(Get(d, "nodes")), Get(d, "peripherals");
    var ok := CheckNodes(Get(d, "nodes"));
    if !ok || !peripherals.Object? {
      return None;
    }
    ok := CheckPeripherals(nodes, peripherals);
    if !ok || !Fields(Get(d, "sequences"), {"init", "mute", "unmute", "shutdown", "health"}) {
      return None;
    }
    var count: nat := 0;
    for k := 0 to 5
      invariant count == OpCount(d, k) <= MAX_OPS
      invariant forall j | 0 <= j < k :: SequenceOk(nodes, peripherals, PHASES[j], Sequence(d, PHASES[j]))
    {
      ok, count := CheckSequence(nodes, peripherals, PHASES[k], Sequence(d, PHASES[k]), count);
      CountGrows(d, k + 1, 5);
      if !ok {
        return None;
      }
    }
    AcceptedIsValid(d);
    return Some(ProfileOf(d));
  }
}
