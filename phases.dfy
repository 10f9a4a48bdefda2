/** `update_traffic_light_phases` (the same function in egt_so2.py, egt_so3.py and
    egt_so4.py): read the traffic-light programs of the base network, write the four
    green times into the phases of program "J0", and store the result as a separate
    network. The base network is a value that is read and never changed. */
module PhaseWrite {
  import opened Common

  /** One `<phase>` element; only its duration is written. */
  datatype Phase = Phase(duration: int, state: string)

  /** One `<tlLogic>` element of the network. */
  datatype TlLogic = TlLogic(id: string, phases: seq<Phase>)

  const Junction: string := "J0"

  /** The phase that carries an approach's green time. */
  function GreenPhase(a: Approach): (i: nat)
    ensures i < 7 && i % 2 == 0
  {
    match a
    case West => 0
    case South => 2
    case North => 4
    case East => 6
  }

  /** `phases[0]`, `phases[2]`, `phases[4]`, `phases[6]` get the green times of west,
      south, north and east; None when the program has fewer than 7 phases, where
      `phases[6]` raises IndexError. */
  function SetGreenTimes(phases: seq<Phase>, green: PerApproach<int>): (r: Option<seq<Phase>>)
    ensures r.None? <==> |phases| < 7
    ensures r.Some? ==> |r.value| == |phases|
    ensures r.Some? ==> forall a :: r.value[GreenPhase(a)] == phases[GreenPhase(a)].(duration := green.Get(a))
    ensures r.Some? ==> forall i :: 0 <= i < |phases| && i != 0 && i != 2 && i != 4 && i != 6 ==>
                          r.value[i] == phases[i]
  {
    if |phases| < 7 then None
    else
      Some(phases[0 := phases[0].(duration := green.west)]
                 [2 := phases[2].(duration := green.south)]
                 [4 := phases[4].(duration := green.north)]
                 [6 := phases[6].(duration := green.east)])
  }

  /** What the written network holds in place of one program of the base network. */
  function WrittenLogic(tl: TlLogic, green: PerApproach<int>): TlLogic
    requires tl.id == Junction ==> |tl.phases| >= 7
  {
    if tl.id == Junction then tl.(phases := SetGreenTimes(tl.phases, green).value) else tl
  }

  /** Some program named "J0" has fewer than 7 phases: the write raises IndexError. */
  predicate WriteFails(base: seq<TlLogic>)
  {
    exists i :: 0 <= i < |base| && base[i].id == Junction && |base[i].phases| < 7
  }

  /** The loop over all `<tlLogic>` elements: every program named "J0" gets the green
      times, every other program is copied as it is. The write fails (None) exactly
      when some "J0" program has fewer than 7 phases. */
  method WritePhases(base: seq<TlLogic>, green: PerApproach<int>) returns (written: Option<seq<TlLogic>>)
    ensures written.None? <==> WriteFails(base)
    ensures written.Some? ==> |written.value| == |base|
    ensures written.Some? ==> forall i :: 0 <= i < |base| ==> written.value[i] == WrittenLogic(base[i], green)
  {
    var tree := base;
    var i := 0;
    while i < |base|
      invariant 0 <= i <= |base| && |tree| == |base|
      invariant forall j :: 0 <= j < i ==> base[j].id == Junction ==> |base[j].phases| >= 7
      invariant forall j :: 0 <= j < i ==> tree[j] == WrittenLogic(base[j], green)
      invariant forall j :: i <= j < |base| ==> tree[j] == base[j]
    {
      if tree[i].id == Junction {
        var phases := SetGreenTimes(tree[i].phases, green);
        if phases.None? {
          return None;
        }
        tree := tree[i := tree[i].(phases := phases.value)];
      }
      i := i + 1;
    }
    written := Some(tree);
  }

  /** A network whose only program is "J0" with 8 phases gets exactly the four green
      times, in phases 0, 2, 4 and 6. */
  lemma WriteIntoJ0(phases: seq<Phase>, green: PerApproach<int>)
    requires |phases| == 8
    ensures var r := WrittenLogic(TlLogic(Junction, phases), green).phases;
            |r| == 8 && r[0].duration == green.west && r[2].duration == green.south
            && r[4].duration == green.north && r[6].duration == green.east
            && r[1] == phases[1] && r[3] == phases[3] && r[5] == phases[5] && r[7] == phases[7]
  {
    var r := SetGreenTimes(phases, green).value;
    assert r[GreenPhase(West)].duration == green.west;
    assert r[GreenPhase(South)].duration == green.south;
    assert r[GreenPhase(North)].duration == green.north;
    assert r[GreenPhase(East)].duration == green.east;
  }
}
