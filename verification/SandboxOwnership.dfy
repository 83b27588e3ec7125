/** Who owns a sandbox claim, over every interleaving of the critical sections of
    internal/broker/sandbox.go. Acquire unlocks while the cluster creates a sandbox, so
    between its two critical sections any other request may run. */
module SandboxOwnership {
  import opened Wrappers
  import opened SandboxProvider

  /** An Acquire between its two critical sections. */
  datatype Flight = Creating(id: string) | Holding(id: string, claim: string, url: AgentUrl)

  /** `doomed` holds the claims that a request has taken out of the map, or got without an
      address, and is about to delete. The last two fields only record what happened:
      the claims ever created, and the claims whose entry an Insert replaced. */
  datatype World = World(
    table: Table, flights: map<nat, Flight>, doomed: multiset<string>, requested: seq<string>,
    created: set<string>, overwritten: multiset<string>)

  const START := World(map[], map[], multiset{}, [], {}, multiset{})

  datatype Step =
    | Lookup(t: nat, id: string, now: int)
    | CreateFails(t: nat)
    | Created(t: nat, claim: string, url: Option<AgentUrl>)
    | Insert(t: nat, now: int)
    | Release(id: string)
    | Reap(now: int, claims: seq<string>)
    | Request(claim: string)

  /** The cluster never hands out one claim name twice. */
  ghost predicate Enabled(ttl: int, w: World, step: Step) {
    match step
    case Lookup(t, _, _) => t !in w.flights
    case CreateFails(t) => t in w.flights && w.flights[t].Creating?
    case Created(t, claim, _) => t in w.flights && w.flights[t].Creating? && claim !in w.created
    case Insert(t, _) => t in w.flights && w.flights[t].Holding?
    case Release(_) => true
    case Reap(now, claims) => StaleClaims(w.table, ttl, now, claims)
    case Request(claim) => claim in w.doomed
  }

  function ClaimAt(t: Table, id: string): multiset<string> {
    if id in t then multiset{t[id].claim} else multiset{}
  }

  ghost function Next(ttl: int, w: World, step: Step): World
    requires Enabled(ttl, w, step)
  {
    match step
    case Lookup(t, id, now) =>
      if id in w.table then w.(table := Touched(w.table, id, now))
      else w.(flights := w.flights[t := Creating(id)])
    case CreateFails(t) => w.(flights := w.flights - {t})
    case Created(t, claim, None) =>
      w.(flights := w.flights - {t}, created := w.created + {claim}, doomed := w.doomed + multiset{claim})
    case Created(t, claim, Some(url)) =>
      w.(flights := w.flights[t := Holding(w.flights[t].id, claim, url)], created := w.created + {claim})
    case Insert(t, now) =>
      var f := w.flights[t];
      w.(flights := w.flights - {t},
         table := Inserted(w.table, f.id, f.claim, f.url, now),
         overwritten := w.overwritten + ClaimAt(w.table, f.id))
    case Release(id) => w.(table := w.table - {id}, doomed := w.doomed + ClaimAt(w.table, id))
    case Reap(now, claims) =>
      w.(table := Evicted(w.table, ttl, now), doomed := w.doomed + multiset(claims))
    case Request(claim) =>
      w.(doomed := w.doomed - multiset{claim}, requested := w.requested + [claim])
  }

  ghost predicate Does(ttl: int, w: World, step: Step, next: World) {
    Enabled(ttl, w, step) && next == Next(ttl, w, step)
  }

  /** `ws` lists the worlds a run passes through. */
  ghost predicate Run(ttl: int, steps: seq<Step>, ws: seq<World>) {
    |ws| == |steps| + 1 && ws[0] == START &&
    forall i :: 0 <= i < |steps| ==> Does(ttl, ws[i], steps[i], ws[i + 1])
  }

  // ----- Each claim has one place -----

  datatype Place = Flying(t: nat) | Mapped(id: string) | Doomed | Requested | Overwritten

  type Places = map<string, Place>

  ghost predicate FlightsPlaced(flights: map<nat, Flight>, place: Places) {
    (forall t <- flights :: flights[t].Holding? ==>
      flights[t].claim in place && place[flights[t].claim] == Flying(t)) &&
    (forall c <- place :: place[c].Flying? ==>
      place[c].t in flights && flights[place[c].t].Holding? && flights[place[c].t].claim == c)
  }

  ghost predicate TablePlaced(t: Table, place: Places) {
    (forall id <- t :: t[id].claim in place && place[t[id].claim] == Mapped(id)) &&
    (forall c <- place :: place[c].Mapped? ==> place[c].id in t && t[place[c].id].claim == c)
  }

  ghost predicate Counted(m: multiset<string>, place: Places, here: Place) {
    forall c :: m[c] == if c in place && place[c] == here then 1 else 0
  }

  ghost predicate Placed(w: World, place: Places) {
    place.Keys == w.created &&
    FlightsPlaced(w.flights, place) && TablePlaced(w.table, place) &&
    Counted(w.doomed, place, Doomed) &&
    Counted(multiset(w.requested), place, Requested) &&
    Counted(w.overwritten, place, Overwritten)
  }

  function Put(place: Places, m: multiset<string>, here: Place): Places {
    map c | c in place :: if c in m then here else place[c]
  }

  ghost function Moved(w: World, place: Places, step: Step): Places {
    match step
    case Created(t, claim, url) => place[claim := if url.None? then Doomed else Flying(t)]
    case Insert(t, _) =>
      if t in w.flights && w.flights[t].Holding? then
        Put(place, ClaimAt(w.table, w.flights[t].id), Overwritten)[w.flights[t].claim := Mapped(w.flights[t].id)]
      else place
    case Release(id) => Put(place, ClaimAt(w.table, id), Doomed)
    case Reap(_, claims) => Put(place, multiset(claims), Doomed)
    case Request(claim) => place[claim := Requested]
    case _ => place
  }

  lemma {:induction false} StaleClaimsDiffer(ttl: int, w: World, place: Places, now: int, claims: seq<string>)
    requires TablePlaced(w.table, place) && StaleClaims(w.table, ttl, now, claims)
    ensures forall c :: multiset(claims)[c] <= 1
    ensures forall c :: c in claims <==>
      c in place && place[c].Mapped? && place[c].id in StaleIds(w.table, ttl, now)
  {
    var ids :| Lists(ids, StaleIds(w.table, ttl, now)) && ClaimsOf(w.table, ids, claims);
    forall i, j | 0 <= i < j < |claims| ensures claims[i] != claims[j] {
      assert place[claims[i]] == Mapped(ids[i]) && place[claims[j]] == Mapped(ids[j]);
    }
    NoRepeats(claims);
    forall c | c in place && place[c].Mapped? && place[c].id in StaleIds(w.table, ttl, now)
      ensures c in claims
    {
      var i :| 0 <= i < |ids| && ids[i] == place[c].id;
      assert claims[i] == c;
    }
  }

  lemma {:induction false} NoRepeats(s: seq<string>)
    requires forall i, j :: 0 <= i < j < |s| ==> s[i] != s[j]
    ensures forall c :: multiset(s)[c] <= 1
  {
    if 0 < |s| {
      var front := s[..|s| - 1];
      NoRepeats(front);
      assert s == front + [s[|s| - 1]];
      assert s[|s| - 1] !in front;
    }
  }

  lemma FlightGains(flights: map<nat, Flight>, place: Places, t: nat, f: Flight)
    requires FlightsPlaced(flights, place) && t in flights && flights[t].Creating?
    requires f.Holding? && f.claim !in place
    ensures FlightsPlaced(flights[t := f], place[f.claim := Flying(t)])
  {
  }

  lemma FlightEnds(flights: map<nat, Flight>, place: Places, t: nat, p: Place)
    requires FlightsPlaced(flights, place) && t in flights && flights[t].Holding? && !p.Flying?
    ensures flights[t].claim in place && place[flights[t].claim] == Flying(t)
    ensures FlightsPlaced(flights - {t}, place[flights[t].claim := p])
  {
  }

  lemma OthersKeepFlying(flights: map<nat, Flight>, place: Places, m: multiset<string>, p: Place)
    requires FlightsPlaced(flights, place) && !p.Flying?
    requires forall c :: c in m ==> c in place && !place[c].Flying?
    ensures FlightsPlaced(flights, Put(place, m, p))
  {
  }

  lemma TableLoses(t: Table, place: Places, ids: set<string>, m: multiset<string>, p: Place)
    requires TablePlaced(t, place) && !p.Mapped?
    requires forall c :: c in m <==> c in place && place[c].Mapped? && place[c].id in ids
    ensures TablePlaced(t - ids, Put(place, m, p))
  {
  }

  lemma TableGains(t: Table, place: Places, id: string, h: Held)
    requires TablePlaced(t, place) && id !in t
    requires h.claim in place && !place[h.claim].Mapped?
    ensures TablePlaced(t[id := h], place[h.claim := Mapped(id)])
  {
  }

  lemma TableUnmoved(t: Table, place: Places, claim: string, p: Place)
    requires TablePlaced(t, place) && !p.Mapped? && (claim in place ==> !place[claim].Mapped?)
    ensures TablePlaced(t, place[claim := p])
  {
  }

  lemma ClaimAtIsMapped(t: Table, place: Places, id: string)
    requires TablePlaced(t, place)
    ensures forall c :: c in ClaimAt(t, id) <==> c in place && place[c].Mapped? && place[c].id in {id}
    ensures forall c :: ClaimAt(t, id)[c] <= 1
  {
  }

  lemma CountKeeps(m: multiset<string>, place: Places, here: Place, claim: string, p: Place)
    requires Counted(m, place, here) && p != here && (claim in place ==> place[claim] != here)
    ensures Counted(m, place[claim := p], here)
  {
  }

  lemma CountMoves(m: multiset<string>, place: Places, here: Place, moved: multiset<string>, p: Place)
    requires Counted(m, place, here)
    requires forall c :: c in moved ==> c in place && place[c] != here
    requires forall c :: moved[c] <= 1
    ensures Counted(if p == here then m + moved else m, Put(place, moved, p), here)
  {
    var after := if p == here then m + moved else m;
    forall c
      ensures after[c] == if c in place && Put(place, moved, p)[c] == here then 1 else 0
    {
      assert m[c] == if c in place && place[c] == here then 1 else 0;
    }
  }

  /** Moves that take sessions out of the map. */
  lemma LeaveTable(w: World, place: Places, ids: set<string>, m: multiset<string>, p: Place)
    requires Placed(w, place) && (p == Doomed || p == Overwritten)
    requires forall c :: c in m <==> c in place && place[c].Mapped? && place[c].id in ids
    requires forall c :: m[c] <= 1
    ensures Placed(
      w.(table := w.table - ids,
         doomed := if p == Doomed then w.doomed + m else w.doomed,
         overwritten := if p == Overwritten then w.overwritten + m else w.overwritten),
      Put(place, m, p))
  {
    hide FlightsPlaced, TablePlaced, Counted;
    OthersKeepFlying(w.flights, place, m, p);
    TableLoses(w.table, place, ids, m, p);
    CountMoves(w.doomed, place, Doomed, m, p);
    CountMoves(multiset(w.requested), place, Requested, m, p);
    CountMoves(w.overwritten, place, Overwritten, m, p);
  }

  lemma InsertFresh(w: World, place: Places, t: nat, now: int)
    requires Placed(w, place) && t in w.flights && w.flights[t].Holding? && w.flights[t].id !in w.table
    ensures var f := w.flights[t];
            Placed(w.(flights := w.flights - {t}, table := Inserted(w.table, f.id, f.claim, f.url, now)),
                   place[f.claim := Mapped(f.id)])
  {
    hide FlightsPlaced, TablePlaced, Counted;
    var f := w.flights[t];
    FlightEnds(w.flights, place, t, Mapped(f.id));
    TableGains(w.table, place, f.id, Held(f.claim, f.url, now));
    CountKeeps(w.doomed, place, Doomed, f.claim, Mapped(f.id));
    CountKeeps(multiset(w.requested), place, Requested, f.claim, Mapped(f.id));
    CountKeeps(w.overwritten, place, Overwritten, f.claim, Mapped(f.id));
  }

  lemma {:induction false} CreatedMovesOneClaim(ttl: int, w: World, place: Places, step: Step)
    requires Placed(w, place) && Enabled(ttl, w, step) && step.Created?
    ensures Placed(Next(ttl, w, step), Moved(w, place, step))
  {
    hide FlightsPlaced, TablePlaced, Counted;
    var Created(t, claim, url) := step;
    var p := if url.None? then Doomed else Flying(t);
    TableUnmoved(w.table, place, claim, p);
    CountKeeps(multiset(w.requested), place, Requested, claim, p);
    CountKeeps(w.overwritten, place, Overwritten, claim, p);
    if url.Some? {
      FlightGains(w.flights, place, t, Holding(w.flights[t].id, claim, url.value));
      CountKeeps(w.doomed, place, Doomed, claim, p);
    } else {
      FlightGivesUp(w.flights, place, t, claim);
      NewIsCounted(w.doomed, place, Doomed, claim);
    }
  }

  lemma FlightGivesUp(flights: map<nat, Flight>, place: Places, t: nat, claim: string)
    requires FlightsPlaced(flights, place) && t in flights && flights[t].Creating? && claim !in place
    ensures FlightsPlaced(flights - {t}, place[claim := Doomed])
  {
  }

  lemma NewIsCounted(m: multiset<string>, place: Places, here: Place, claim: string)
    requires Counted(m, place, here) && (claim in place ==> place[claim] != here)
    ensures Counted(m + multiset{claim}, place[claim := here], here)
  {
  }

  lemma {:induction false} InsertMovesOneClaim(ttl: int, w: World, place: Places, step: Step)
    requires Placed(w, place) && Enabled(ttl, w, step) && step.Insert?
    ensures Placed(Next(ttl, w, step), Moved(w, place, step))
  {
    hide Placed, ClaimAt;
    var f := w.flights[step.t];
    var m := ClaimAt(w.table, f.id);
    assert TablePlaced(w.table, place) by { Parts(w, place); }
    ClaimAtIsMapped(w.table, place, f.id);
    LeaveTable(w, place, {f.id}, m, Overwritten);
    var between := w.(table := w.table - {f.id}, overwritten := w.overwritten + m);
    InsertFresh(between, Put(place, m, Overwritten), step.t, step.now);
    assert Inserted(w.table - {f.id}, f.id, f.claim, f.url, step.now)
        == Inserted(w.table, f.id, f.claim, f.url, step.now);
  }

  lemma Parts(w: World, place: Places)
    requires Placed(w, place)
    ensures TablePlaced(w.table, place)
  {
  }

  lemma {:induction false} ReapMovesItsClaims(ttl: int, w: World, place: Places, step: Step)
    requires Placed(w, place) && Enabled(ttl, w, step) && step.Reap?
    ensures Placed(Next(ttl, w, step), Moved(w, place, step))
  {
    hide Placed, StaleIds;
    assert TablePlaced(w.table, place) by { Parts(w, place); }
    StaleClaimsDiffer(ttl, w, place, step.now, step.claims);
    LeaveTable(w, place, StaleIds(w.table, ttl, step.now), multiset(step.claims), Doomed);
  }

  lemma {:induction false} ReleaseMovesOneClaim(ttl: int, w: World, place: Places, step: Step)
    requires Placed(w, place) && step.Release?
    ensures Placed(Next(ttl, w, step), Moved(w, place, step))
  {
    hide Placed, ClaimAt;
    assert TablePlaced(w.table, place) by { Parts(w, place); }
    ClaimAtIsMapped(w.table, place, step.id);
    LeaveTable(w, place, {step.id}, ClaimAt(w.table, step.id), Doomed);
  }

  lemma OthersFly(flights: map<nat, Flight>, place: Places, claim: string, p: Place)
    requires FlightsPlaced(flights, place) && claim in place && !place[claim].Flying? && !p.Flying?
    ensures FlightsPlaced(flights, place[claim := p])
  {
  }

  lemma DoomedIsUncounted(m: multiset<string>, place: Places, claim: string)
    requires Counted(m, place, Doomed) && claim in m
    ensures claim in place && place[claim] == Doomed
    ensures Counted(m - multiset{claim}, place[claim := Requested], Doomed)
  {
  }

  lemma {:induction false} RequestMovesOneClaim(ttl: int, w: World, place: Places, step: Step)
    requires Placed(w, place) && Enabled(ttl, w, step) && step.Request?
    ensures Placed(Next(ttl, w, step), Moved(w, place, step))
  {
    hide FlightsPlaced, TablePlaced, Counted;
    DoomedIsUncounted(w.doomed, place, step.claim);
    OthersFly(w.flights, place, step.claim, Requested);
    TableUnmoved(w.table, place, step.claim, Requested);
    CountKeeps(w.overwritten, place, Overwritten, step.claim, Requested);
    NewIsCounted(multiset(w.requested), place, Requested, step.claim);
    assert multiset(w.requested + [step.claim]) == multiset(w.requested) + multiset{step.claim};
  }

  lemma {:induction false} QuietStepKeepsPlaces(ttl: int, w: World, place: Places, step: Step)
    requires Placed(w, place) && Enabled(ttl, w, step) && (step.Lookup? || step.CreateFails?)
    ensures Placed(Next(ttl, w, step), Moved(w, place, step))
  {
    hide Counted;
  }

  lemma {:induction false} StepKeepsPlaces(ttl: int, w: World, place: Places, step: Step)
    requires Placed(w, place) && Enabled(ttl, w, step)
    ensures Placed(Next(ttl, w, step), Moved(w, place, step))
  {
    hide Placed, Enabled, Next, Moved;
    match step
    case Created(_, _, _) => CreatedMovesOneClaim(ttl, w, place, step);
    case Insert(_, _) => InsertMovesOneClaim(ttl, w, place, step);
    case Reap(_, _) => ReapMovesItsClaims(ttl, w, place, step);
    case Request(_) => RequestMovesOneClaim(ttl, w, place, step);
    case Release(_) => ReleaseMovesOneClaim(ttl, w, place, step);
    case _ => QuietStepKeepsPlaces(ttl, w, place, step);
  }

  lemma {:induction false} PlacesExist(ttl: int, steps: seq<Step>, ws: seq<World>, n: nat) returns (place: Places)
    requires Run(ttl, steps, ws) && n < |ws|
    ensures Placed(ws[n], place)
  {
    if n == 0 {
      place := map[];
    } else {
      hide Placed, Enabled, Next, Moved;
      var before := PlacesExist(ttl, steps, ws, n - 1);
      assert Does(ttl, ws[n - 1], steps[n - 1], ws[n - 1 + 1]);
      place := Moved(ws[n - 1], before, steps[n - 1]);
      StepKeepsPlaces(ttl, ws[n - 1], before, steps[n - 1]);
    }
  }

  // ----- The accounting -----

  predicate InFlight(w: World, claim: string) {
    exists t <- w.flights :: w.flights[t].Holding? && w.flights[t].claim == claim
  }

  predicate InTable(t: Table, claim: string) {
    exists id <- t :: t[id].claim == claim
  }

  function Once(b: bool): nat {
    if b then 1 else 0
  }

  /** How often a claim is accounted for. */
  function Accounts(w: World, claim: string): nat {
    Once(InFlight(w, claim)) + Once(InTable(w.table, claim)) +
    w.doomed[claim] + multiset(w.requested)[claim] + w.overwritten[claim]
  }

  predicate OneOwnerEach(w: World) {
    (forall i, j :: i in w.table && j in w.table && w.table[i].claim == w.table[j].claim ==> i == j) &&
    (forall t, u :: t in w.flights && u in w.flights && t != u ==>
      w.flights[t].Creating? || w.flights[u].Creating? || w.flights[t].claim != w.flights[u].claim)
  }

  /** Every sandbox ever created is at any time either held by one Acquire, or owned by one
      session, or about to be deleted, or requested for deletion, or overwritten: one of
      these and once. So no claim is ever requested for deletion twice. */
  lemma {:induction false} CreatedClaimsPartition(
    ttl: int, steps: seq<Step>, ws: seq<World>, w: World, claim: string)
    requires Run(ttl, steps, ws) && w in ws
    ensures Accounts(w, claim) == Once(claim in w.created) && OneOwnerEach(w)
  {
    hide Run;
    var n :| 0 <= n < |ws| && ws[n] == w;
    var place := PlacesExist(ttl, steps, ws, n);
    if claim in place {
      match place[claim]
      case Flying(t) => assert InFlight(w, claim);
      case Mapped(id) => assert InTable(w.table, claim);
      case _ =>
    }
  }

  /** When no Acquire, release or reap is under way and no session is left, each sandbox
      ever created has been requested for deletion once, or was overwritten. */
  lemma QuietProviderDeletesAllButTheOverwritten(ttl: int, steps: seq<Step>, ws: seq<World>, w: World)
    requires Run(ttl, steps, ws) && w in ws
    requires w.flights == map[] && w.table == map[] && w.doomed == multiset{}
    ensures multiset(w.requested) + w.overwritten == multiset(w.created)
  {
    hide Run;
    forall c ensures (multiset(w.requested) + w.overwritten)[c] == multiset(w.created)[c] {
      CreatedClaimsPartition(ttl, steps, ws, w, c);
    }
  }

  lemma {:induction false} OverwrittenStays(
    ttl: int, steps: seq<Step>, ws: seq<World>, i: nat, n: nat, claim: string)
    requires Run(ttl, steps, ws) && i <= n < |ws|
    ensures ws[i].overwritten[claim] <= ws[n].overwritten[claim]
  {
    if i < n {
      OverwrittenStays(ttl, steps, ws, i, n - 1, claim);
      assert Does(ttl, ws[n - 1], steps[n - 1], ws[n - 1 + 1]);
    }
  }

  /** An overwritten sandbox is leaked: no later step maps it, dooms it or requests its deletion. */
  lemma OverwrittenIsNeverDeleted(ttl: int, steps: seq<Step>, ws: seq<World>, i: nat, n: nat, claim: string)
    requires Run(ttl, steps, ws) && i <= n < |ws| && claim in ws[i].overwritten
    ensures claim !in ws[n].requested && claim !in ws[n].doomed
    ensures !InTable(ws[n].table, claim) && !InFlight(ws[n], claim)
  {
    hide Run;
    OverwrittenStays(ttl, steps, ws, i, n, claim);
    CreatedClaimsPartition(ttl, steps, ws, ws[n], claim);
  }

  // ----- When a claim is overwritten -----

  /** Two Acquires of one session are between their critical sections. */
  predicate Overlap(w: World) {
    exists t, u :: t in w.flights && u in w.flights && t != u && w.flights[t].id == w.flights[u].id
  }

  predicate FirstAcquires(w: World) {
    forall t <- w.flights :: w.flights[t].id !in w.table
  }

  lemma {:induction false} FlightsStayFirst(ttl: int, w: World, step: Step)
    requires Enabled(ttl, w, step) && FirstAcquires(w) && !Overlap(w)
    ensures FirstAcquires(Next(ttl, w, step)) && Next(ttl, w, step).overwritten == w.overwritten
  {
    if step.Insert? {
      var f := w.flights[step.t];
      forall t | t in w.flights && t != step.t ensures w.flights[t].id != f.id {
      }
    }
  }

  /** No sandbox is overwritten while no two Acquires of one session overlap. */
  lemma {:induction false} NoOverlapNoLeak(ttl: int, steps: seq<Step>, ws: seq<World>, n: nat)
    requires Run(ttl, steps, ws) && n < |ws|
    requires forall i :: 0 <= i < n ==> !Overlap(ws[i])
    ensures ws[n].overwritten == multiset{} && FirstAcquires(ws[n])
  {
    hide Overlap, FirstAcquires, Enabled, Next;
    if 0 < n {
      NoOverlapNoLeak(ttl, steps, ws, n - 1);
      assert Does(ttl, ws[n - 1], steps[n - 1], ws[n - 1 + 1]);
      FlightsStayFirst(ttl, ws[n - 1], steps[n - 1]);
    } else {
      assert FirstAcquires(START) by { NobodyFlies(); }
    }
  }

  lemma NobodyFlies()
    ensures FirstAcquires(START)
  {
  }

  /** Step `k` puts a sandbox under the session. */
  predicate Fills(steps: seq<Step>, ws: seq<World>, k: nat, id: string) {
    k < |steps| && k < |ws| && steps[k].Insert? &&
    steps[k].t in ws[k].flights && ws[k].flights[steps[k].t].id == id
  }

  /** Step `k` releases the session, or reaps it because it is idle. */
  predicate Clears(ttl: int, steps: seq<Step>, ws: seq<World>, k: nat, id: string) {
    k < |steps| && k < |ws| &&
    match steps[k]
    case Release(released) => released == id
    case Reap(now, _) => id in StaleIds(ws[k].table, ttl, now)
    case _ => false
  }

  predicate FilledSince(ttl: int, steps: seq<Step>, ws: seq<World>, i: nat, n: nat, id: string) {
    exists k: nat :: i <= k < n && Fills(steps, ws, k, id) &&
      forall m: nat :: k < m < n ==> !Clears(ttl, steps, ws, m, id)
  }

  lemma {:induction false} FilledStep(ttl: int, steps: seq<Step>, ws: seq<World>, i: nat, n: nat, id: string)
    requires i <= n
    ensures FilledSince(ttl, steps, ws, i, n + 1, id) <==>
      Fills(steps, ws, n, id) || (FilledSince(ttl, steps, ws, i, n, id) && !Clears(ttl, steps, ws, n, id))
  {
    hide Fills, Clears;
    if Fills(steps, ws, n, id) {
      assert FilledSince(ttl, steps, ws, i, n + 1, id);
    } else if FilledSince(ttl, steps, ws, i, n, id) && !Clears(ttl, steps, ws, n, id) {
      var k: nat :| i <= k < n && Fills(steps, ws, k, id) &&
        forall m: nat :: k < m < n ==> !Clears(ttl, steps, ws, m, id);
      assert FilledSince(ttl, steps, ws, i, n + 1, id);
    }
  }

  /** One step: a session is mapped after it if and only if the step fills it, or it was
      mapped and the step does not clear it. */
  lemma MappedStep(ttl: int, steps: seq<Step>, ws: seq<World>, n: nat, id: string)
    requires Run(ttl, steps, ws) && 0 < n < |ws|
    ensures id in ws[n].table <==>
      Fills(steps, ws, n - 1, id) || (id in ws[n - 1].table && !Clears(ttl, steps, ws, n - 1, id))
  {
    assert Does(ttl, ws[n - 1], steps[n - 1], ws[n - 1 + 1]);
  }

  lemma NeverFilled(ttl: int, steps: seq<Step>, ws: seq<World>, i: nat, id: string)
    ensures !FilledSince(ttl, steps, ws, i, i, id)
  {
  }

  lemma {:induction false} MappedExactly(ttl: int, steps: seq<Step>, ws: seq<World>, i: nat, n: nat, id: string)
    requires Run(ttl, steps, ws) && i <= n < |ws| && id !in ws[i].table
    ensures id in ws[n].table <==> FilledSince(ttl, steps, ws, i, n, id)
  {
    hide *;
    if i < n {
      MappedExactly(ttl, steps, ws, i, n - 1, id);
      FilledStep(ttl, steps, ws, i, n - 1, id);
      MappedStep(ttl, steps, ws, n, id);
    } else {
      NeverFilled(ttl, steps, ws, i, id);
    }
  }

  lemma ClaimAtGrows(m: multiset<string>, t: Table, id: string)
    ensures m + ClaimAt(t, id) == m <==> id !in t
  {
    assert |m + ClaimAt(t, id)| == |m| + |ClaimAt(t, id)|;
  }

  /** The leak, exactly: the Insert of an Acquire that missed its session at step `i`
      overwrites a sandbox if and only if another Insert for that session fell in between
      and neither a release nor a reap has undone it since. */
  lemma OverwritesExactly(
    ttl: int, steps: seq<Step>, ws: seq<World>, i: nat, j: nat, t: nat, id: string, began: int, now: int)
    requires Run(ttl, steps, ws) && i < j < |steps|
    requires steps[i] == Lookup(t, id, began) && id !in ws[i].table
    requires steps[j] == Insert(t, now) && t in ws[j].flights && ws[j].flights[t].id == id
    ensures ws[j + 1].overwritten != ws[j].overwritten <==> FilledSince(ttl, steps, ws, i, j, id)
  {
    hide FilledSince, ClaimAt;
    MappedExactly(ttl, steps, ws, i, j, id);
    ClaimAtGrows(ws[j].overwritten, ws[j].table, id);
    assert Does(ttl, ws[j], steps[j], ws[j + 1]);
  }

  /** An Acquire is over, and holds nothing any more, once creation has failed, the sandbox
      came without an address, or its entry is in the map. */
  lemma AcquireEnds(ttl: int, steps: seq<Step>, ws: seq<World>, k: nat)
    requires Run(ttl, steps, ws) && k < |steps|
    ensures steps[k].CreateFails? || steps[k].Insert? || (steps[k].Created? && steps[k].url.None?) ==>
              ws[k + 1].flights == ws[k].flights - {steps[k].t}
  {
    assert Does(ttl, ws[k], steps[k], ws[k + 1]);
  }

  // ----- A sandbox in use is kept -----

  /** Step `i` finds the session mapped, or maps it, at `now`. */
  predicate Uses(steps: seq<Step>, ws: seq<World>, i: nat, id: string, now: int) {
    i < |steps| && i < |ws| &&
    match steps[i]
    case Lookup(_, asked, at) => asked == id && at == now && id in ws[i].table
    case Insert(_, at) => at == now && Fills(steps, ws, i, id)
    case _ => false
  }

  /** Step `k` neither releases the session nor maps it anew, reaps no later than ttl after
      `now`, and looks it up no earlier than `now`. */
  predicate Spares(ttl: int, steps: seq<Step>, ws: seq<World>, k: nat, id: string, now: int) {
    k < |steps| &&
    match steps[k]
    case Release(released) => released != id
    case Insert(_, _) => !Fills(steps, ws, k, id)
    case Reap(at, _) => at <= now + ttl
    case Lookup(_, asked, at) => asked == id ==> now <= at
    case _ => true
  }

  predicate Keeps(t: Table, id: string, claim: string, url: AgentUrl, since: int) {
    id in t && t[id].claim == claim && t[id].url == url && since <= t[id].lastSeen
  }

  lemma UseIsSeen(ttl: int, steps: seq<Step>, ws: seq<World>, i: nat, id: string, now: int)
    requires Run(ttl, steps, ws) && i < |steps| && Uses(steps, ws, i, id, now)
    ensures id in ws[i + 1].table && ws[i + 1].table[id].lastSeen == now
  {
    assert Does(ttl, ws[i], steps[i], ws[i + 1]);
  }

  lemma SpareStepKeeps(
    ttl: int, steps: seq<Step>, ws: seq<World>, k: nat, id: string, claim: string, url: AgentUrl, now: int)
    requires Run(ttl, steps, ws) && k < |steps| && Spares(ttl, steps, ws, k, id, now)
    requires Keeps(ws[k].table, id, claim, url, now)
    ensures Keeps(ws[k + 1].table, id, claim, url, now)
  {
    assert Does(ttl, ws[k], steps[k], ws[k + 1]);
  }

  lemma {:induction false} KeptWhileSpared(
    ttl: int, steps: seq<Step>, ws: seq<World>, i: nat, n: nat, id: string, now: int)
    requires Run(ttl, steps, ws) && i < n < |ws| && Uses(steps, ws, i, id, now)
    requires forall k: nat :: i < k < n ==> Spares(ttl, steps, ws, k, id, now)
    ensures id in ws[i + 1].table
    ensures Keeps(ws[n].table, id, ws[i + 1].table[id].claim, ws[i + 1].table[id].url, now)
  {
    UseIsSeen(ttl, steps, ws, i, id, now);
    if i + 1 < n {
      KeptWhileSpared(ttl, steps, ws, i, n - 1, id, now);
      var h := ws[i + 1].table[id];
      SpareStepKeeps(ttl, steps, ws, n - 1, id, h.claim, h.url, now);
    }
  }

  /** A session used at `now` keeps its sandbox, and nobody is about to delete it, until it is
      released, mapped anew, or reaped more than ttl later. */
  lemma {:induction false} InUseIsKept(ttl: int, steps: seq<Step>, ws: seq<World>, i: nat, n: nat, id: string, now: int)
    requires Run(ttl, steps, ws) && i < n < |ws| && Uses(steps, ws, i, id, now)
    requires forall k: nat :: i < k < n ==> Spares(ttl, steps, ws, k, id, now)
    ensures id in ws[i + 1].table && id in ws[n].table
    ensures var claim := ws[i + 1].table[id].claim;
            ws[n].table[id].claim == claim && claim !in ws[n].doomed && claim !in ws[n].requested
  {
    KeptWhileSpared(ttl, steps, ws, i, n, id, now);
    var claim := ws[i + 1].table[id].claim;
    CreatedClaimsPartition(ttl, steps, ws, ws[n], claim);
    assert InTable(ws[n].table, claim);
  }

  // ----- A sandbox out of use is deleted -----

  /** Step `k` neither uses, releases nor fills the session. */
  predicate LeavesAlone(steps: seq<Step>, ws: seq<World>, k: nat, id: string) {
    k < |steps| &&
    match steps[k]
    case Lookup(_, asked, _) => asked != id
    case Release(released) => released != id
    case Insert(_, _) => !Fills(steps, ws, k, id)
    case _ => true
  }

  /** A reap among the steps after `i` and before `n` comes more than ttl after `now`. */
  predicate ReapedSince(ttl: int, steps: seq<Step>, i: nat, n: nat, now: int) {
    exists k :: i < k < n && k < |steps| && steps[k].Reap? && now + ttl < steps[k].now
  }

  predicate GivenUp(w: World, claim: string) {
    claim in w.doomed || claim in w.requested
  }

  lemma GivenUpStays(ttl: int, steps: seq<Step>, ws: seq<World>, k: nat, claim: string)
    requires Run(ttl, steps, ws) && k < |steps| && GivenUp(ws[k], claim)
    ensures GivenUp(ws[k + 1], claim)
  {
    assert Does(ttl, ws[k], steps[k], ws[k + 1]);
  }

  /** A reap takes out exactly the sessions last seen more than ttl before it, and their
      claims are about to be deleted. */
  lemma ReapTakesTheIdle(ttl: int, steps: seq<Step>, ws: seq<World>, k: nat, id: string)
    requires Run(ttl, steps, ws) && k < |steps| && steps[k].Reap? && id in ws[k].table
    ensures var h := ws[k].table[id];
            if h.lastSeen < steps[k].now - ttl then id !in ws[k + 1].table && h.claim in ws[k + 1].doomed
            else id in ws[k + 1].table && ws[k + 1].table[id] == h
  {
    var w, t := ws[k], ws[k + 1];
    assert Does(ttl, w, steps[k], t);
    assert t.table == Evicted(w.table, ttl, steps[k].now);
    if w.table[id].lastSeen < steps[k].now - ttl {
      StaleClaimIsListed(w.table, ttl, steps[k].now, steps[k].claims, id);
    }
  }

  lemma StaleClaimIsListed(t: Table, ttl: int, now: int, claims: seq<string>, id: string)
    requires StaleClaims(t, ttl, now, claims) && id in t && t[id].lastSeen < now - ttl
    ensures t[id].claim in claims
  {
    var ids: seq<string> :| Lists(ids, StaleIds(t, ttl, now)) && ClaimsOf(t, ids, claims);
    assert id in StaleIds(t, ttl, now);
    var i :| 0 <= i < |ids| && ids[i] == id;
    assert claims[i] == t[id].claim;
  }

  lemma AloneStepKeeps(ttl: int, steps: seq<Step>, ws: seq<World>, k: nat, id: string)
    requires Run(ttl, steps, ws) && k < |steps| && LeavesAlone(steps, ws, k, id) && !steps[k].Reap?
    ensures id in ws[k].table <==> id in ws[k + 1].table
    ensures id in ws[k].table ==> ws[k + 1].table[id] == ws[k].table[id]
  {
    assert Does(ttl, ws[k], steps[k], ws[k + 1]);
  }

  lemma AloneStepFillsNothing(ttl: int, steps: seq<Step>, ws: seq<World>, k: nat, id: string)
    requires Run(ttl, steps, ws) && k < |steps| && LeavesAlone(steps, ws, k, id) && id !in ws[k].table
    ensures id !in ws[k + 1].table
  {
    assert Does(ttl, ws[k], steps[k], ws[k + 1]);
  }

  lemma ReapedStep(ttl: int, steps: seq<Step>, i: nat, n: nat, now: int)
    requires i < n < |steps|
    ensures ReapedSince(ttl, steps, i, n + 1, now) <==>
            ReapedSince(ttl, steps, i, n, now) || (steps[n].Reap? && now + ttl < steps[n].now)
  {
  }

  lemma NotReapedYet(ttl: int, steps: seq<Step>, i: nat, now: int)
    ensures !ReapedSince(ttl, steps, i, i + 1, now)
  {
  }

  /** Eviction, exactly: a session used at `now` and left alone since still has its entry if
      and only if no reap since has come more than ttl later; otherwise its sandbox is about
      to be deleted or its deletion has been requested. */
  lemma {:induction false} EvictedExactly(
    ttl: int, steps: seq<Step>, ws: seq<World>, i: nat, n: nat, id: string, now: int)
    requires Run(ttl, steps, ws) && i < n < |ws| && Uses(steps, ws, i, id, now)
    requires forall k: nat :: i < k < n ==> LeavesAlone(steps, ws, k, id)
    ensures id in ws[i + 1].table
    ensures id in ws[n].table <==> !ReapedSince(ttl, steps, i, n, now)
    ensures id in ws[n].table ==> ws[n].table[id] == ws[i + 1].table[id]
    ensures id !in ws[n].table ==> GivenUp(ws[n], ws[i + 1].table[id].claim)
  {
    hide ReapedSince, LeavesAlone, Uses, GivenUp;
    UseIsSeen(ttl, steps, ws, i, id, now);
    if i + 1 == n {
      NotReapedYet(ttl, steps, i, now);
    } else {
      var k, h := n - 1, ws[i + 1].table[id];
      EvictedExactly(ttl, steps, ws, i, k, id, now);
      ReapedStep(ttl, steps, i, k, now);
      assert LeavesAlone(steps, ws, k, id);
      if id !in ws[k].table {
        AloneStepFillsNothing(ttl, steps, ws, k, id);
        GivenUpStays(ttl, steps, ws, k, h.claim);
      } else if steps[k].Reap? {
        ReapTakesTheIdle(ttl, steps, ws, k, id);
        DoomedIsGivenUp(ws[n], h.claim);
      } else {
        AloneStepKeeps(ttl, steps, ws, k, id);
      }
    }
  }

  lemma DoomedIsGivenUp(w: World, claim: string)
    ensures claim in w.doomed ==> GivenUp(w, claim)
  {
  }

  // ----- Nobody is sent to another session's sandbox -----

  /** Step `j` created the claim, with this address, for an Acquire of the session. */
  predicate CreatedFor(steps: seq<Step>, ws: seq<World>, j: nat, id: string, claim: string, url: AgentUrl) {
    && j < |steps| && j < |ws| && steps[j].Created?
    && steps[j].claim == claim && steps[j].url == Some(url)
    && steps[j].t in ws[j].flights && ws[j].flights[steps[j].t].id == id
  }

  predicate CreatedBefore(steps: seq<Step>, ws: seq<World>, n: nat, id: string, claim: string, url: AgentUrl) {
    exists j: nat :: j < n && CreatedFor(steps, ws, j, id, claim, url)
  }

  predicate OwnAddresses(steps: seq<Step>, ws: seq<World>, n: nat)
    requires n < |ws|
  {
    && (forall t <- ws[n].flights :: ws[n].flights[t].Holding? ==>
          var f := ws[n].flights[t]; CreatedBefore(steps, ws, n, f.id, f.claim, f.url))
    && (forall id <- ws[n].table ::
          CreatedBefore(steps, ws, n, id, ws[n].table[id].claim, ws[n].table[id].url))
  }

  lemma CreatedStays(steps: seq<Step>, ws: seq<World>, n: nat, id: string, claim: string, url: AgentUrl)
    ensures CreatedBefore(steps, ws, n, id, claim, url) ==> CreatedBefore(steps, ws, n + 1, id, claim, url)
    ensures CreatedFor(steps, ws, n, id, claim, url) ==> CreatedBefore(steps, ws, n + 1, id, claim, url)
  {
  }

  lemma FlightIsItsOwn(ttl: int, steps: seq<Step>, ws: seq<World>, m: nat, a: nat)
    requires Run(ttl, steps, ws) && m < |steps| && OwnAddresses(steps, ws, m)
    requires a in ws[m + 1].flights && ws[m + 1].flights[a].Holding?
    ensures var f := ws[m + 1].flights[a]; CreatedBefore(steps, ws, m + 1, f.id, f.claim, f.url)
  {
    hide CreatedBefore, StaleClaims;
    assert Does(ttl, ws[m], steps[m], ws[m + 1]);
    var f := ws[m + 1].flights[a];
    CreatedStays(steps, ws, m, f.id, f.claim, f.url);
  }

  lemma EntryIsItsOwn(ttl: int, steps: seq<Step>, ws: seq<World>, m: nat, id: string)
    requires Run(ttl, steps, ws) && m < |steps| && OwnAddresses(steps, ws, m) && id in ws[m + 1].table
    ensures var h := ws[m + 1].table[id]; CreatedBefore(steps, ws, m + 1, id, h.claim, h.url)
  {
    hide CreatedBefore, StaleClaims;
    assert Does(ttl, ws[m], steps[m], ws[m + 1]);
    var h := ws[m + 1].table[id];
    CreatedStays(steps, ws, m, id, h.claim, h.url);
  }

  /** The address under a session, which Acquire returns and the poller visits, is always that
      of a sandbox that was created for this very session, under the claim it is stored with. */
  lemma {:induction false} AddressesAreTheSessionsOwn(ttl: int, steps: seq<Step>, ws: seq<World>, n: nat)
    requires Run(ttl, steps, ws) && n < |ws|
    ensures OwnAddresses(steps, ws, n)
  {
    if 0 < n {
      var m := n - 1;
      AddressesAreTheSessionsOwn(ttl, steps, ws, m);
      hide CreatedBefore, Run;
      var t := ws[n];
      forall a | a in t.flights && t.flights[a].Holding?
        ensures CreatedBefore(steps, ws, n, t.flights[a].id, t.flights[a].claim, t.flights[a].url)
      {
        FlightIsItsOwn(ttl, steps, ws, m, a);
      }
      forall id | id in t.table ensures CreatedBefore(steps, ws, n, id, t.table[id].claim, t.table[id].url) {
        EntryIsItsOwn(ttl, steps, ws, m, id);
      }
    }
  }

  // Two browser tabs open one session at once.

  function TwoTabs(id: string, a: string, b: string, url: AgentUrl, now: int, k: nat): Step {
    match k
    case 0 => Lookup(0, id, now)
    case 1 => Lookup(1, id, now)
    case 2 => Created(0, a, Some(url))
    case 3 => Created(1, b, Some(url))
    case 4 => Insert(0, now)
    case 5 => Insert(1, now)
    case 6 => Release(id)
    case _ => Request(b)
  }

  function TwoTabsWorld(id: string, a: string, b: string, url: AgentUrl, now: int, k: nat): World {
    var first, second := Holding(id, a, url), Holding(id, b, url);
    var lost, both := multiset{a}, {a, b};
    match k
    case 0 => START
    case 1 => START.(flights := map[0 := Creating(id)])
    case 2 => START.(flights := map[0 := Creating(id), 1 := Creating(id)])
    case 3 => START.(flights := map[0 := first, 1 := Creating(id)], created := {a})
    case 4 => START.(flights := map[0 := first, 1 := second], created := both)
    case 5 => START.(flights := map[1 := second], created := both, table := map[id := Held(a, url, now)])
    case 6 => START.(created := both, table := map[id := Held(b, url, now)], overwritten := lost)
    case 7 => START.(created := both, doomed := multiset{b}, overwritten := lost)
    case _ => START.(created := both, requested := [b], overwritten := lost)
  }

  lemma TwoTabsCreate(
    ttl: int, id: string, a: string, b: string, url: AgentUrl, now: int, k: nat)
    requires a != b && k < 4
    ensures Does(ttl, TwoTabsWorld(id, a, b, url, now, k), TwoTabs(id, a, b, url, now, k),
                 TwoTabsWorld(id, a, b, url, now, k + 1))
  {
  }

  lemma TwoTabsInsert(
    ttl: int, id: string, a: string, b: string, url: AgentUrl, now: int, k: nat)
    requires a != b && 4 <= k < 6
    ensures Does(ttl, TwoTabsWorld(id, a, b, url, now, k), TwoTabs(id, a, b, url, now, k),
                 TwoTabsWorld(id, a, b, url, now, k + 1))
  {
    var first, second := Holding(id, a, url), Holding(id, b, url);
    if k == 4 {
      assert map[0 := first, 1 := second] - {0} == map[1 := second];
    } else {
      assert map[1 := second] - {1} == map[];
    }
  }

  lemma TwoTabsEnd(
    ttl: int, id: string, a: string, b: string, url: AgentUrl, now: int, k: nat)
    requires a != b && 6 <= k < 8
    ensures Does(ttl, TwoTabsWorld(id, a, b, url, now, k), TwoTabs(id, a, b, url, now, k),
                 TwoTabsWorld(id, a, b, url, now, k + 1))
  {
    if k == 6 {
      assert map[id := Held(b, url, now)] - {id} == map[];
    } else {
      assert multiset{b} - multiset{b} == multiset{};
    }
  }

  /** Both Acquires miss, so the first sandbox is never deleted though the session is
      released in the end. */
  lemma OverlappingAcquiresLeak(ttl: int, id: string, a: string, b: string, url: AgentUrl, now: int)
    returns (steps: seq<Step>, ws: seq<World>)
    requires a != b
    ensures Run(ttl, steps, ws) && |steps| == 8
    ensures ws[8] == World(map[], map[], multiset{}, [b], {a, b}, multiset{a})
  {
    steps := seq(8, k requires 0 <= k => TwoTabs(id, a, b, url, now, k));
    ws := seq(9, k requires 0 <= k => TwoTabsWorld(id, a, b, url, now, k));
    hide TwoTabs, Does;
    forall k | 0 <= k < 8 ensures Does(ttl, ws[k], steps[k], ws[k + 1]) {
      if k < 4 {
        TwoTabsCreate(ttl, id, a, b, url, now, k);
      } else if 6 <= k {
        TwoTabsEnd(ttl, id, a, b, url, now, k);
      } else {
        TwoTabsInsert(ttl, id, a, b, url, now, k);
      }
    }
  }
}
