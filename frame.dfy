/** One frame of the game loop's physics, run over the list of objects:
    every object in list order gets wall check, integrate, wall check,
    integrate; then every pair of objects whose circles overlap is handed
    to the collision handler, lower list position first; then the ball's
    position decides the goal banner. */
module Frame {
  import opened Arena
  import opened Bodies
  import opened Pairing
  import opened Scoring

  /** No object appears twice in the list. */
  ghost predicate Distinct(objects: array<Body>)
    reads objects
  {
    forall i, j :: 0 <= i < j < objects.Length ==> objects[i] != objects[j]
  }

  ghost function Objects(objects: array<Body>): set<Body>
    reads objects
  {
    set k | 0 <= k < objects.Length :: objects[k]
  }

  /** The states of the listed objects, in list order. */
  ghost function States(objects: array<Body>): (r: seq<BodyState>)
    reads objects, Objects(objects)
    ensures |r| == objects.Length
    ensures forall k :: 0 <= k < objects.Length ==> r[k] == objects[k].Snapshot()
  {
    seq(objects.Length, k requires 0 <= k < objects.Length reads objects, Objects(objects) => objects[k].Snapshot())
  }

  /** Every pair (i, j) of the list has i < j < n. */
  predicate PairsWithin(ps: seq<(nat, nat)>, n: nat)
  {
    forall k :: 0 <= k < |ps| ==> ps[k].0 < ps[k].1 < n
  }

  lemma PairsAreWithin(n: nat)
    ensures PairsWithin(Pairs(n), n)
  {
    PairsFromBounds(0, n);
  }

  /** Every object advanced by its own wall-and-integrate sequence. */
  function AdvanceAll(w: seq<BodyState>): (r: seq<BodyState>)
    ensures |r| == |w|
    ensures forall k :: 0 <= k < |w| ==> r[k] == Advance(w[k])
  {
    seq(|w|, k requires 0 <= k < |w| => Advance(w[k]))
  }

  /** The states after the handler runs on objects i and j, i as self. */
  function Collide(w: seq<BodyState>, i: nat, j: nat, formula: (BodyState, BodyState) -> Rebound)
    : (r: seq<BodyState>)
    requires i < j < |w|
    ensures |r| == |w|
    ensures forall k :: 0 <= k < |w| ==> SamePlace(r[k], w[k])
    ensures forall k :: 0 <= k < |w| && k != i && k != j ==> r[k] == w[k]
    ensures (r[i], r[j]) == CollisionOutcome(w[i], w[j], formula)
  {
    var out := CollisionOutcome(w[i], w[j], formula);
    w[i := out.0][j := out.1]
  }

  /** The states after the collision pass over the pair list ps: each pair
      is tested for overlap on the states as they are when it is reached,
      and handled if it overlaps. */
  function Dispatch(w: seq<BodyState>, ps: seq<(nat, nat)>, formula: (BodyState, BodyState) -> Rebound)
    : (r: seq<BodyState>)
    requires PairsWithin(ps, |w|)
    ensures |r| == |w|
    ensures forall k :: 0 <= k < |w| ==> SamePlace(r[k], w[k])
    decreases |ps|
  {
    if ps == [] then w
    else
      var i, j := ps[0].0, ps[0].1;
      var next := if Overlapping(w[i], w[j]) then Collide(w, i, j, formula) else w;
      Dispatch(next, ps[1..], formula)
  }

  lemma DispatchFirst(w: seq<BodyState>, ps: seq<(nat, nat)>, formula: (BodyState, BodyState) -> Rebound)
    requires PairsWithin(ps, |w|) && ps != []
    ensures PairsWithin(ps[1..], |w|)
    ensures Dispatch(w, ps, formula) ==
      Dispatch(if Overlapping(w[ps[0].0], w[ps[0].1]) then Collide(w, ps[0].0, ps[0].1, formula) else w, ps[1..], formula)
  {
  }

  /** The pairs of ps whose circles overlap in the states w, in list order. */
  function Contacts(w: seq<BodyState>, ps: seq<(nat, nat)>): (r: seq<(nat, nat)>)
    requires PairsWithin(ps, |w|)
    ensures PairsWithin(r, |w|)
    decreases |ps|
  {
    if ps == [] then []
    else
      var rest := Contacts(w, ps[1..]);
      if Overlapping(w[ps[0].0], w[ps[0].1]) then [ps[0]] + rest else rest
  }

  /** A pair is a contact exactly when it is listed and its circles overlap. */
  lemma {:induction false} ContactsMembers(w: seq<BodyState>, ps: seq<(nat, nat)>, p: (nat, nat))
    requires PairsWithin(ps, |w|)
    ensures p in Contacts(w, ps) <==> p in ps && p.0 < |w| && p.1 < |w| && Overlapping(w[p.0], w[p.1])
    decreases |ps|
  {
    if ps != [] {
      ContactsMembers(w, ps[1..], p);
      assert p in ps <==> p == ps[0] || p in ps[1..];
    }
  }

  /** The handler run on each pair of cs in turn, without any test. */
  function Resolve(w: seq<BodyState>, cs: seq<(nat, nat)>, formula: (BodyState, BodyState) -> Rebound)
    : seq<BodyState>
    requires PairsWithin(cs, |w|)
    decreases |cs|
  {
    if cs == [] then w
    else Resolve(Collide(w, cs[0].0, cs[0].1, formula), cs[1..], formula)
  }

  /** Overlap verdicts depend only on positions and sizes. */
  lemma {:induction false} ContactsIgnoreVelocity(w: seq<BodyState>, v: seq<BodyState>, ps: seq<(nat, nat)>)
    requires |w| == |v| && PairsWithin(ps, |w|)
    requires forall k :: 0 <= k < |w| ==> SamePlace(v[k], w[k])
    ensures Contacts(v, ps) == Contacts(w, ps)
    decreases |ps|
  {
    if ps != [] {
      ContactsIgnoreVelocity(w, v, ps[1..]);
      assert Overlapping(v[ps[0].0], v[ps[0].1]) == Overlapping(w[ps[0].0], w[ps[0].1]);
    }
  }

  /** Because the handler writes only velocities, the collision pass hands
      the handler exactly the pairs that overlap at the start of the pass,
      in list order; no handled collision can make or break a later
      overlap. */
  lemma {:induction false} DispatchUsesStartPositions(w: seq<BodyState>, ps: seq<(nat, nat)>, formula: (BodyState, BodyState) -> Rebound)
    requires PairsWithin(ps, |w|)
    ensures Dispatch(w, ps, formula) == Resolve(w, Contacts(w, ps), formula)
    decreases |ps|
  {
    if ps != [] {
      var i, j := ps[0].0, ps[0].1;
      var rest := ps[1..];
      if Overlapping(w[i], w[j]) {
        var next := Collide(w, i, j, formula);
        DispatchUsesStartPositions(next, rest, formula);
        ContactsIgnoreVelocity(w, next, rest);
        var cs := Contacts(w, ps);
        assert cs == [ps[0]] + Contacts(w, rest);
        assert cs[0] == ps[0] && cs[1..] == Contacts(w, rest);
      } else {
        DispatchUsesStartPositions(w, rest, formula);
      }
    }
  }

  /** The state a frame leaves the objects in, before the goal test. */
  function FrameResult(w: seq<BodyState>, formula: (BodyState, BodyState) -> Rebound): (r: seq<BodyState>)
    ensures |r| == |w|
    ensures forall k :: 0 <= k < |w| ==> SamePlace(r[k], Advance(w[k]))
  {
    PairsAreWithin(|w|);
    Dispatch(AdvanceAll(w), Pairs(|w|), formula)
  }

  /** Over a frame no object changes mass or size, and each object's
      position is the one its own wall-and-integrate sequence gives it:
      collisions between objects change only velocities. */
  lemma FrameMovesEachObjectOnItsOwn(w: seq<BodyState>, formula: (BodyState, BodyState) -> Rebound, k: nat)
    requires k < |w|
    ensures FrameResult(w, formula)[k].mass == w[k].mass && FrameResult(w, formula)[k].size == w[k].size
    ensures FrameResult(w, formula)[k].x == Advance(w[k]).x && FrameResult(w, formula)[k].y == Advance(w[k]).y
  {
    AdvanceEffect(w[k]);
  }

  // ---------------------------------------------------------------------
  // The frame as the game loop runs it

  /** The wall check and integration loop: each object in list order gets
      wall check, integrate, wall check, integrate, and nothing else is
      touched. */
  method WallPass(objects: array<Body>)
    requires Distinct(objects)
    modifies Objects(objects)
    ensures States(objects) == AdvanceAll(old(States(objects)))
  {
    ghost var start := States(objects);
    for i := 0 to objects.Length
      invariant forall k :: 0 <= k < i ==> objects[k].Snapshot() == Advance(start[k])
      invariant forall k :: i <= k < objects.Length ==> objects[k].Snapshot() == start[k]
    {
      var obj := objects[i];
      obj.HandleWallCollision();
      obj.UpdatePos();
      obj.HandleWallCollision();
      obj.UpdatePos();
      assert obj.Snapshot() == Advance(start[i]);
    }
    assert States(objects) == AdvanceAll(start);
  }

  /** Hands objects i and j to the collision handler, i as self. */
  method HandlePair(objects: array<Body>, i: nat, j: nat, formula: (BodyState, BodyState) -> Rebound)
    requires i < j < objects.Length && Distinct(objects)
    modifies Objects(objects)
    ensures States(objects) == Collide(old(States(objects)), i, j, formula)
  {
    ghost var before := States(objects);
    objects[i].HandleCollision(objects[j], formula);
    assert forall k :: 0 <= k < objects.Length && k != i && k != j ==> objects[k].Snapshot() == before[k];
  }

  /** The collision loop: the pairs are listed, and each overlapping pair
      is handed to the handler, the lower list position as self. */
  method CollisionPass(objects: array<Body>, formula: (BodyState, BodyState) -> Rebound)
    requires Distinct(objects)
    modifies Objects(objects)
    ensures PairsWithin(Pairs(objects.Length), objects.Length)
    ensures States(objects) == Dispatch(old(States(objects)), Pairs(objects.Length), formula)
  {
    var n := objects.Length;
    var pairs := Pairs(n);
    PairsAreWithin(n);
    ghost var start := States(objects);
    var t := 0;
    while t < |pairs|
      invariant 0 <= t <= |pairs|
      invariant PairsWithin(pairs[t..], n)
      invariant Dispatch(States(objects), pairs[t..], formula) == Dispatch(start, pairs, formula)
    {
      var i, j := pairs[t].0, pairs[t].1;
      DispatchFirst(States(objects), pairs[t..], formula);
      assert pairs[t..][1..] == pairs[t + 1..];
      if Overlapping(objects[i].Snapshot(), objects[j].Snapshot()) {
        HandlePair(objects, i, j, formula);
      }
      t := t + 1;
    }
  }

  /** One frame's physics and goal test.  The ball is the first object of
      the list.  Returns the banners to draw. */
  method Step(objects: array<Body>, formula: (BodyState, BodyState) -> Rebound) returns (banners: seq<string>)
    requires 0 < objects.Length && Distinct(objects)
    modifies Objects(objects)
    ensures States(objects) == FrameResult(old(States(objects)), formula)
    ensures banners == Banners(objects[0].x)
  {
    WallPass(objects);
    CollisionPass(objects, formula);
    var ball := objects[0];
    banners := Banners(ball.x);
  }

  /** The starting layout: the ball, then the two players, all at rest. */
  const BALL_START := BodyState(600.0, 400.0, 0.0, 0.0, BALL_MASS, BALL_SIZE)
  const PLAYER1_START := BodyState(200.0, 200.0, 0.0, 0.0, PLAYER_MASS, PLAYER_SIZE)
  const PLAYER2_START := BodyState(200.0, 460.0, 0.0, 0.0, PLAYER_MASS, PLAYER_SIZE)

  function KickoffStates(): seq<BodyState>
  {
    [BALL_START, PLAYER1_START, PLAYER2_START]
  }

  method Kickoff() returns (objects: array<Body>)
    ensures fresh(objects) && Distinct(objects)
    ensures States(objects) == KickoffStates()
  {
    var ball := new Body(600.0, 400.0, BALL_MASS, BALL_SIZE);
    var player1 := new Body(200.0, 200.0, PLAYER_MASS, PLAYER_SIZE);
    var player2 := new Body(200.0, 460.0, PLAYER_MASS, PLAYER_SIZE);
    objects := new Body[3] [ball, player1, player2];
    assert States(objects) == KickoffStates();
  }

  lemma PairsOfThree()
    ensures Pairs(3) == [(0, 1), (0, 2), (1, 2)]
  {
    assert Row(0, 3) == [(0, 1), (0, 2)];
    assert Row(1, 3) == [(1, 2)];
    assert Row(2, 3) == [];
  }

  /** Until a shot is taken nothing moves: the starting layout is at rest,
      inside the field, and no two of its circles overlap, so a frame
      leaves it as it is whatever the collision formula. */
  lemma KickoffIsAtRest(formula: (BodyState, BodyState) -> Rebound)
    ensures FrameResult(KickoffStates(), formula) == KickoffStates()
  {
    KickoffStaysPut();
    PairsOfThree();
    KickoffHasNoCollisions(formula);
  }

  lemma KickoffHasNoCollisions(formula: (BodyState, BodyState) -> Rebound)
    ensures PairsWithin([(0, 1), (0, 2), (1, 2)], 3)
    ensures Dispatch(KickoffStates(), [(0, 1), (0, 2), (1, 2)], formula) == KickoffStates()
  {
    NoContactsAtKickoff();
    DispatchUsesStartPositions(KickoffStates(), [(0, 1), (0, 2), (1, 2)], formula);
  }

  lemma KickoffStaysPut()
    ensures AdvanceAll(KickoffStates()) == KickoffStates()
  {
    var w := KickoffStates();
    assert w[0] == BALL_START && w[1] == PLAYER1_START && w[2] == PLAYER2_START;
    forall k | 0 <= k < |w|
      ensures Advance(w[k]) == w[k]
    {
      StartStateRests(w[k]);
    }
    AdvanceAllFixed(w);
  }

  lemma StartStateRests(s: BodyState)
    requires s == BALL_START || s == PLAYER1_START || s == PLAYER2_START
    ensures Advance(s) == s
  {
    RestingBodyStays(s);
  }

  lemma AdvanceAllFixed(w: seq<BodyState>)
    requires forall k :: 0 <= k < |w| ==> Advance(w[k]) == w[k]
    ensures AdvanceAll(w) == w
  {
  }

  lemma NoContactsAtKickoff()
    ensures PairsWithin([(0, 1), (0, 2), (1, 2)], 3)
    ensures Contacts(KickoffStates(), [(0, 1), (0, 2), (1, 2)]) == []
  {
    var w := KickoffStates();
    assert !Overlapping(w[1], w[2]);
    assert Contacts(w, [(1, 2)]) == [];
    assert !Overlapping(w[0], w[2]);
    assert [(0, 2), (1, 2)][1..] == [(1, 2)];
    assert Contacts(w, [(0, 2), (1, 2)]) == [];
    assert !Overlapping(w[0], w[1]);
    assert [(0, 1), (0, 2), (1, 2)][1..] == [(0, 2), (1, 2)];
  }
}
