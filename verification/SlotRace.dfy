/** One signal, one slot, any number of emitters: the race between emits and the slot's owner, who calls
    emplace and clear.  Every load, compare-exchange and exchange is a step of its own.  The bits are
    trigger-once bits and the slot's filter does not change. */
module SlotRace {
  import opened SignalWords

  type Tid = nat
  type Hid = nat   // one number per allocated handler

  /** `_handler` of a HandlerManager. */
  datatype Cell = Empty | Holds(h: Hid) | EmittedTag

  /** What has become of a handler. */
  datatype Fate =
    | Offered          // emplace is still deciding
    | Refused          // emplace returned false
    | Accepted         // emplace returned true; the handler sits in its cell
    | Taken(t: Tid)    // exchanged out by an emitter, about to run
    | Ran(t: Tid)
    | Cleared | Replaced | Freed

  datatype EmitPc =
    | Quiet
    | Loaded(sig: Bits, expected: Bits)
    | HasGrant(granted: Bits)                            // the compare-exchange set these bits
    | Visiting(todo: Bits, list: seq<Bit>)               // in the loop of operator()
    | Invoking(h: Hid, todo: Bits, list: seq<Bit>)       // exchanged a handler out

  datatype OwnerPc =
    | Rest
    | EmplaceCheck(b: Bit, h: Hid)
    | EmplaceLoad(b: Bit, h: Hid)
    | EmplaceCas(b: Bit, h: Hid, seen: Cell)
    | ClearLoad(b: Bit)
    | ClearCas(b: Bit, seen: Cell)

  /** `managers` is the list of HandlerManagers, newest first, `cells` their cells; `grants` remembers
      which emitter each bit went to. */
  datatype State = State(
    word: Bits, filter: Bits, registered: bool, destroyed: bool,
    managers: seq<Bit>, cells: map<Bit, Cell>, grants: map<Bit, Tid>,
    emitters: map<Tid, EmitPc>, owner: OwnerPc, fate: map<Hid, Fate>)

  datatype Action =
    | Register
    | EmitLoad(t: Tid, sig: Bits) | EmitCas(t: Tid, spurious: bool) | EmitHead(t: Tid) | EmitNext(t: Tid)
    | EmitRun(t: Tid) | EmitEnd(t: Tid)
    | EmplaceBegin(b: Bit, h: Hid) | EmplaceStep
    | ClearBegin(b: Bit) | ClearStep
    | Destroy

  ghost predicate Init(s: State) {
    && s.word == {} && !s.registered && !s.destroyed && s.managers == [] && s.cells == map[] && s.grants == map[]
    && s.owner == Rest && s.fate == map[]
    && forall t :: t in s.emitters ==> s.emitters[t] == Quiet
  }

  // ---------------------------------------------------------------- the emitters

  ghost predicate EmitLoadStep(s: State, t: Tid, sig: Bits, s': State)
    requires t in s.emitters
  {
    s.emitters[t] == Quiet && sig != {} && sig <= ONCE &&
    s' == s.(emitters := s.emitters[t := Loaded(sig, s.word)])
  }

  /** The word gets the signal, and the emitter the bits that were not set. */
  ghost function Grant(s: State, t: Tid, sig: Bits): State {
    s.(word := s.word + sig, grants := s.grants + (map b | b in sig - s.word :: t),
       emitters := s.emitters[t := HasGrant(sig - s.word)])
  }

  /** One turn of the loop of UpdateState; with nothing valid emits is over. */
  ghost predicate EmitCasStep(s: State, t: Tid, spurious: bool, s': State)
    requires t in s.emitters
  {
    s.emitters[t].Loaded? &&
    var Loaded(sig, expected) := s.emitters[t];
    var valid := sig - expected;
    if valid == {} then s' == s.(emitters := s.emitters[t := Quiet])
    else if s.word == expected && !spurious then s' == Grant(s, t, sig)
    else s' == s.(emitters := s.emitters[t := Loaded(sig, s.word)])
  }

  /** Walks to the slot, if it is linked already, applies the filter and takes the list of managers. */
  ghost predicate EmitHeadStep(s: State, t: Tid, s': State)
    requires t in s.emitters
  {
    s.emitters[t].HasGrant? &&
    s' == s.(emitters := s.emitters[t :=
      if s.registered then Visiting(s.emitters[t].granted * s.filter, s.managers) else Quiet])
  }

  /** One turn of the loop of operator(): invoke exchanges the tag in if the manager is for a granted bit. */
  ghost predicate EmitNextStep(s: State, t: Tid, s': State)
    requires t in s.emitters
  {
    s.emitters[t].Visiting? &&
    var Visiting(todo, list) := s.emitters[t];
    todo != {} && list != [] &&
    var b := list[0];
    if b !in todo then s' == s.(emitters := s.emitters[t := Visiting(todo, list[1..])])
    else
      b in s.cells &&
      var s1 := s.(cells := s.cells[b := EmittedTag]);
      match s.cells[b]
      case Empty => s' == s1.(emitters := s.emitters[t := Visiting(todo - {b}, list[1..])])
      case Holds(h) => s' == s1.(emitters := s.emitters[t := Invoking(h, todo - {b}, list[1..])],
                                 fate := s.fate[h := Taken(t)])
      case EmittedTag => false
  }

  ghost predicate EmitRunStep(s: State, t: Tid, s': State)
    requires t in s.emitters
  {
    s.emitters[t].Invoking? &&
    var Invoking(h, todo, list) := s.emitters[t];
    s' == s.(emitters := s.emitters[t := Visiting(todo, list)], fate := s.fate[h := Ran(t)])
  }

  ghost predicate EmitEndStep(s: State, t: Tid, s': State)
    requires t in s.emitters
  {
    s.emitters[t].Visiting? && (s.emitters[t].todo == {} || s.emitters[t].list == []) &&
    s' == s.(emitters := s.emitters[t := Quiet])
  }

  // ---------------------------------------------------------------- the owner

  /** loadHandler<true>: a manager that is missing is created with an empty cell. */
  ghost predicate EmplaceBeginStep(s: State, b: Bit, h: Hid, s': State) {
    s.registered && s.owner == Rest && b in ONCE && h !in s.fate &&
    var s1 := s.(owner := EmplaceCheck(b, h), fate := s.fate[h := Offered]);
    s' == if b in s.cells then s1 else s1.(managers := [b] + s.managers, cells := s.cells[b := Empty])
  }

  ghost function Refuse(s: State, h: Hid): State {
    s.(owner := Rest, fate := s.fate[h := Refused])
  }

  /** The handler goes into the cell of `b`, and the one that was there is freed. */
  ghost function Accept(s: State, b: Bit, h: Hid): State
    requires b in s.cells
  {
    s.(owner := Rest, cells := s.cells[b := Holds(h)],
       fate := (if s.cells[b].Holds? then s.fate[s.cells[b].h := Replaced] else s.fate)[h := Accepted])
  }

  ghost predicate EmplaceStepNext(s: State, s': State) {
    match s.owner
    case EmplaceCheck(b, h) =>
      s' == if b in s.word then Refuse(s, h) else s.(owner := EmplaceLoad(b, h))
    case EmplaceLoad(b, h) =>
      b in s.cells &&
      s' == if s.cells[b] == EmittedTag then Refuse(s, h) else s.(owner := EmplaceCas(b, h, s.cells[b]))
    case EmplaceCas(b, h, seen) =>
      b in s.cells &&
      s' == if s.cells[b] != seen then Refuse(s, h) else Accept(s, b, h)
    case _ => false
  }

  ghost predicate ClearBeginStep(s: State, b: Bit, s': State) {
    s.registered && s.owner == Rest && b in ONCE &&
    s' == if b in s.cells then s.(owner := ClearLoad(b)) else s
  }

  ghost predicate ClearStepNext(s: State, s': State) {
    match s.owner
    case ClearLoad(b) =>
      b in s.cells &&
      s' == s.(owner := if s.cells[b].Holds? then ClearCas(b, s.cells[b]) else Rest)
    case ClearCas(b, seen) =>
      b in s.cells && seen.Holds? &&
      s' == (if s.cells[b] != seen then s.(owner := Rest)
             else s.(owner := Rest, cells := s.cells[b := Empty], fate := s.fate[seen.h := Cleared]))
    case _ => false
  }

  ghost predicate RegisterStep(s: State, s': State) {
    !s.registered && s' == s.(registered := true)
  }

  /** ~Signal: nobody is inside any more; the managers delete the handlers that are left. */
  ghost predicate DestroyStep(s: State, s': State) {
    !s.destroyed && s.owner == Rest && (forall t :: t in s.emitters ==> s.emitters[t] == Quiet) &&
    s' == s.(destroyed := true, cells := map b | b in s.cells :: if s.cells[b].Holds? then Empty else s.cells[b],
             fate := map h | h in s.fate :: if Holds(h) in s.cells.Values then Freed else s.fate[h])
  }

  ghost predicate Next(s: State, a: Action, s': State) {
    !s.destroyed &&
    match a
    case Register => RegisterStep(s, s')
    case EmitLoad(t, sig) => t in s.emitters && EmitLoadStep(s, t, sig, s')
    case EmitCas(t, spurious) => t in s.emitters && EmitCasStep(s, t, spurious, s')
    case EmitHead(t) => t in s.emitters && EmitHeadStep(s, t, s')
    case EmitNext(t) => t in s.emitters && EmitNextStep(s, t, s')
    case EmitRun(t) => t in s.emitters && EmitRunStep(s, t, s')
    case EmitEnd(t) => t in s.emitters && EmitEndStep(s, t, s')
    case EmplaceBegin(b, h) => EmplaceBeginStep(s, b, h, s')
    case EmplaceStep => EmplaceStepNext(s, s')
    case ClearBegin(b) => ClearBeginStep(s, b, s')
    case ClearStep => ClearStepNext(s, s')
    case Destroy => DestroyStep(s, s')
  }

  /** A run, last step outermost. */
  datatype Run = Start(s: State) | Then(run: Run, a: Action, s: State)

  ghost predicate IsRun(r: Run) {
    match r
    case Start(s) => Init(s)
    case Then(run, a, s') => IsRun(run) && Next(run.s, a, s')
  }

  // ---------------------------------------------------------------- the invariant

  /** The bits an emitter was granted and has not dealt with yet. */
  ghost function Owed(p: EmitPc): Bits {
    match p
    case HasGrant(granted) => granted
    case Visiting(todo, _) => todo
    case Invoking(_, todo, _) => todo
    case _ => {}
  }

  ghost function Ahead(p: EmitPc): seq<Bit> {
    match p
    case Visiting(_, list) => list
    case Invoking(_, _, list) => list
    case _ => []
  }

  /** The emitter that was granted `b` is still on its way to the cell of `b`. */
  ghost predicate Coming(s: State, b: Bit) {
    b in s.grants && s.grants[b] in s.emitters &&
    var p := s.emitters[s.grants[b]];
    b in Owed(p) && (p.HasGrant? || b in Ahead(p))
  }

  ghost predicate Lists(s: State) {
    && (forall b :: b in s.cells <==> b in s.managers)
    && (!s.registered ==> s.cells == map[] && s.owner == Rest)
    && (forall t, b :: t in s.emitters && b in Ahead(s.emitters[t]) ==> b in s.cells)
    && match s.owner
       case Rest => true
       case EmplaceCas(b, _, seen) => b in s.cells && seen != EmittedTag
       case ClearCas(b, seen) => b in s.cells && seen.Holds?
       case _ => s.owner.b in s.cells
  }

  /** A granted bit is owed by its emitter only, and until that is done nobody has put the tag in. */
  ghost predicate Owes(emitters: map<Tid, EmitPc>, grants: map<Bit, Tid>, cells: map<Bit, Cell>) {
    forall t, b :: t in emitters && b in Owed(emitters[t]) ==>
      b in grants && grants[b] == t && (b in cells ==> cells[b] != EmittedTag)
  }

  ghost predicate Grants(s: State) {
    && s.grants.Keys == s.word
    && (forall b :: b in s.cells && s.cells[b] == EmittedTag ==> b in s.word)
    && Owes(s.emitters, s.grants, s.cells)
  }

  /** No handler can be passed over: its emitter is coming, or has put the tag in its way. */
  ghost predicate Coverage(s: State) {
    && (forall b :: b in s.cells && s.cells[b].Holds? && b in s.word && b in s.filter ==> Coming(s, b))
    && (s.owner.EmplaceLoad? || s.owner.EmplaceCas? ==>
          var b := s.owner.b;
          b in s.cells && (b in s.word && b in s.filter ==> Coming(s, b) || s.cells[b] == EmittedTag))
  }

  ghost predicate InHand(o: OwnerPc, h: Hid) {
    (o.EmplaceCheck? || o.EmplaceLoad? || o.EmplaceCas?) && o.h == h
  }

  ghost predicate InSomeCell(cells: map<Bit, Cell>, h: Hid) {
    exists b :: b in cells && cells[b] == Holds(h)
  }

  ghost predicate CellFates(cells: map<Bit, Cell>, fate: map<Hid, Fate>) {
    && (forall b :: b in cells && cells[b].Holds? ==> cells[b].h in fate && fate[cells[b].h] == Accepted)
    && (forall b, c :: b in cells && c in cells && cells[b].Holds? && cells[b] == cells[c] ==> b == c)
    && (forall h :: h in fate && fate[h] == Accepted ==> InSomeCell(cells, h))
  }

  ghost predicate OwnerFates(owner: OwnerPc, fate: map<Hid, Fate>) {
    forall h :: InHand(owner, h) <==> h in fate && fate[h] == Offered
  }

  ghost predicate EmitterFates(emitters: map<Tid, EmitPc>, fate: map<Hid, Fate>) {
    && (forall t :: t in emitters && emitters[t].Invoking? ==>
          emitters[t].h in fate && fate[emitters[t].h] == Taken(t))
    && (forall h :: h in fate && fate[h].Taken? ==>
          fate[h].t in emitters && emitters[fate[h].t].Invoking? && emitters[fate[h].t].h == h)
  }

  ghost predicate Fates(s: State) {
    CellFates(s.cells, s.fate) && OwnerFates(s.owner, s.fate) && EmitterFates(s.emitters, s.fate)
  }

  ghost predicate Control(s: State) {
    Lists(s) && Grants(s) && Coverage(s)
  }

  ghost predicate Inv(s: State) {
    Control(s) && Fates(s)
  }

  // ---------------------------------------------------------------- every step keeps it: who goes where

  lemma EmitLoadControl(s: State, t: Tid, sig: Bits, s': State)
    requires Control(s) && t in s.emitters && EmitLoadStep(s, t, sig, s')
    ensures Control(s')
  {}

  lemma EmitCasControl(s: State, t: Tid, spurious: bool, s': State)
    requires Control(s) && t in s.emitters && EmitCasStep(s, t, spurious, s')
    ensures Control(s')
  {
    EmitCasLists(s, t, spurious, s'); EmitCasGrants(s, t, spurious, s'); EmitCasCoverage(s, t, spurious, s');
  }

  lemma EmitCasLists(s: State, t: Tid, spurious: bool, s': State)
    requires Lists(s) && t in s.emitters && EmitCasStep(s, t, spurious, s')
    ensures Lists(s')
  {
    EmitCasMoves(s, t, spurious, s');
    hide EmitCasStep;
  }

  lemma GrantedOwes(emitters: map<Tid, EmitPc>, grants: map<Bit, Tid>, cells: map<Bit, Cell>, t: Tid, valid: Bits)
    requires Owes(emitters, grants, cells) && t in emitters && valid !! grants.Keys
    requires forall b :: b in cells && cells[b] == EmittedTag ==> b in grants.Keys
    ensures Owes(emitters[t := HasGrant(valid)], grants + (map b | b in valid :: t), cells)
  {
    assert forall b :: b in valid ==> b !in grants;
  }

  lemma QuietOwes(emitters: map<Tid, EmitPc>, grants: map<Bit, Tid>, cells: map<Bit, Cell>, t: Tid, p: EmitPc)
    requires Owes(emitters, grants, cells) && t in emitters && Owed(p) <= Owed(emitters[t])
    ensures Owes(emitters[t := p], grants, cells)
  {}

  lemma UntaggedOwes(emitters: map<Tid, EmitPc>, grants: map<Bit, Tid>, cells: map<Bit, Cell>, b: Bit, c: Cell)
    requires Owes(emitters, grants, cells) && c != EmittedTag
    ensures Owes(emitters, grants, cells[b := c])
  {}

  lemma GrantGrants(s: State, t: Tid, sig: Bits)
    requires Grants(s) && t in s.emitters
    ensures Grants(Grant(s, t, sig))
  {
    hide Owes;
    GrantedOwes(s.emitters, s.grants, s.cells, t, sig - s.word);
    assert (map b | b in sig - s.word :: t).Keys == sig - s.word;
  }

  lemma QuietGrants(s: State, t: Tid, p: EmitPc)
    requires Grants(s) && t in s.emitters && Owed(p) <= Owed(s.emitters[t])
    ensures Grants(s.(emitters := s.emitters[t := p]))
  {
    QuietOwes(s.emitters, s.grants, s.cells, t, p);
  }

  lemma EmitCasMoves(s: State, t: Tid, spurious: bool, s': State)
    requires t in s.emitters && EmitCasStep(s, t, spurious, s')
    ensures s.emitters[t].Loaded?
    ensures s' == Grant(s, t, s.emitters[t].sig) ||
            (t in s'.emitters && Owed(s'.emitters[t]) == {} && Ahead(s'.emitters[t]) == [] &&
             s' == s.(emitters := s.emitters[t := s'.emitters[t]]))
  {
    hide Grant;
  }

  lemma EmitCasGrants(s: State, t: Tid, spurious: bool, s': State)
    requires Grants(s) && t in s.emitters && EmitCasStep(s, t, spurious, s')
    ensures Grants(s')
  {
    EmitCasMoves(s, t, spurious, s');
    hide *;
    if s' == Grant(s, t, s.emitters[t].sig) {
      GrantGrants(s, t, s.emitters[t].sig);
    } else {
      QuietGrants(s, t, s'.emitters[t]);
    }
  }

  lemma EmitCasCoverage(s: State, t: Tid, spurious: bool, s': State)
    requires Coverage(s) && t in s.emitters && EmitCasStep(s, t, spurious, s')
    ensures Coverage(s')
  {
    EmitCasMoves(s, t, spurious, s');
    hide EmitCasStep;
  }

  lemma EmitHeadControl(s: State, t: Tid, s': State)
    requires Control(s) && t in s.emitters && EmitHeadStep(s, t, s')
    ensures Control(s')
  {}

  lemma EmitNextControl(s: State, t: Tid, s': State)
    requires Control(s) && t in s.emitters && EmitNextStep(s, t, s')
    ensures Control(s')
  {
    EmitNextLists(s, t, s'); EmitNextGrants(s, t, s'); EmitNextCoverage(s, t, s');
  }

  lemma EmitNextLists(s: State, t: Tid, s': State)
    requires Lists(s) && t in s.emitters && EmitNextStep(s, t, s')
    ensures Lists(s')
  {}

  lemma EmitNextGrants(s: State, t: Tid, s': State)
    requires Grants(s) && t in s.emitters && EmitNextStep(s, t, s')
    ensures Grants(s')
  {
    QuietOwes(s.emitters, s.grants, s.cells, t, s'.emitters[t]);
    EmitNextOwes(s, t, s');
    hide Owes;
  }

  lemma EmitNextOwes(s: State, t: Tid, s': State)
    requires Owes(s.emitters, s.grants, s.cells) && t in s.emitters && EmitNextStep(s, t, s')
    ensures Owes(s'.emitters, s'.grants, s'.cells)
  {
    QuietOwes(s.emitters, s.grants, s.cells, t, s'.emitters[t]);
  }

  lemma StillComing(s: State, t: Tid, s': State, b: Bit)
    requires t in s.emitters && EmitNextStep(s, t, s') && Coming(s, b)
    ensures Coming(s', b) || (b in s'.cells && s'.cells[b] == EmittedTag)
  {}

  lemma EmitNextCoverage(s: State, t: Tid, s': State)
    requires Coverage(s) && t in s.emitters && EmitNextStep(s, t, s')
    ensures Coverage(s')
  {
    forall b | Coming(s, b) ensures Coming(s', b) || (b in s'.cells && s'.cells[b] == EmittedTag) {
      StillComing(s, t, s', b);
    }
  }

  lemma EmitRunControl(s: State, t: Tid, s': State)
    requires Control(s) && t in s.emitters && (EmitRunStep(s, t, s') || EmitEndStep(s, t, s'))
    ensures Control(s')
  {
    EmitRunLists(s, t, s'); EmitRunGrants(s, t, s'); EmitRunCoverage(s, t, s');
  }

  lemma EmitRunLists(s: State, t: Tid, s': State)
    requires Lists(s) && t in s.emitters && (EmitRunStep(s, t, s') || EmitEndStep(s, t, s'))
    ensures Lists(s')
  {}

  lemma EmitRunGrants(s: State, t: Tid, s': State)
    requires Grants(s) && t in s.emitters && (EmitRunStep(s, t, s') || EmitEndStep(s, t, s'))
    ensures Grants(s')
  {}

  lemma EmitRunCoverage(s: State, t: Tid, s': State)
    requires Coverage(s) && t in s.emitters && (EmitRunStep(s, t, s') || EmitEndStep(s, t, s'))
    ensures Coverage(s')
  {}

  lemma EmplaceBeginControl(s: State, b: Bit, h: Hid, s': State)
    requires Control(s) && EmplaceBeginStep(s, b, h, s')
    ensures Control(s')
  {
    EmplaceBeginGrants(s, b, h, s');
  }

  lemma EmplaceBeginGrants(s: State, b: Bit, h: Hid, s': State)
    requires Grants(s) && EmplaceBeginStep(s, b, h, s')
    ensures Grants(s')
  {}

  lemma EmplaceStepControl(s: State, s': State)
    requires Control(s) && EmplaceStepNext(s, s')
    ensures Control(s')
  {
    EmplaceStepLists(s, s'); EmplaceStepGrants(s, s'); EmplaceStepCoverage(s, s');
  }

  lemma EmplaceStepLists(s: State, s': State)
    requires Lists(s) && EmplaceStepNext(s, s')
    ensures Lists(s')
  {}

  lemma EmplaceStepGrants(s: State, s': State)
    requires Lists(s) && Grants(s) && EmplaceStepNext(s, s')
    ensures Grants(s')
  {
    UntaggedOwes(s.emitters, s.grants, s.cells, s.owner.b, Holds(s.owner.h));
    hide Owes;
  }

  lemma EmplaceStepCoverage(s: State, s': State)
    requires Lists(s) && Coverage(s) && EmplaceStepNext(s, s')
    ensures Coverage(s')
  {}

  lemma ClearControl(s: State, b: Bit, s': State)
    requires Control(s) && (ClearBeginStep(s, b, s') || ClearStepNext(s, s'))
    ensures Control(s')
  {
    ClearLists(s, b, s'); ClearGrants(s, b, s'); ClearCoverage(s, b, s');
  }

  lemma ClearLists(s: State, b: Bit, s': State)
    requires Lists(s) && (ClearBeginStep(s, b, s') || ClearStepNext(s, s'))
    ensures Lists(s')
  {}

  lemma ClearGrants(s: State, b: Bit, s': State)
    requires Lists(s) && Grants(s) && (ClearBeginStep(s, b, s') || ClearStepNext(s, s'))
    ensures Grants(s')
  {
    if s.owner.ClearCas? {
      UntaggedOwes(s.emitters, s.grants, s.cells, s.owner.b, Empty);
    }
    hide Owes;
  }

  lemma ClearCoverage(s: State, b: Bit, s': State)
    requires Lists(s) && Coverage(s) && (ClearBeginStep(s, b, s') || ClearStepNext(s, s'))
    ensures Coverage(s')
  {}

  lemma DestroyControl(s: State, s': State)
    requires Control(s) && (DestroyStep(s, s') || RegisterStep(s, s'))
    ensures Control(s')
  {}

  // ---------------------------------------------------------------- every step keeps it: what becomes of a handler

  /** Only the cell of `b` changes: whoever sits elsewhere stays. */
  lemma CellsElsewhere(cells: map<Bit, Cell>, b: Bit, c: Cell)
    ensures forall h :: InSomeCell(cells, h) && (b in cells ==> cells[b] != Holds(h)) ==> InSomeCell(cells[b := c], h)
  {
    forall h | InSomeCell(cells, h) && (b in cells ==> cells[b] != Holds(h)) ensures InSomeCell(cells[b := c], h) {
      var x :| x in cells && cells[x] == Holds(h);
      assert x in cells[b := c] && cells[b := c][x] == Holds(h);
    }
  }

  lemma TakenFates(s: State, t: Tid, b: Bit, h: Hid, todo: Bits, list: seq<Bit>)
    requires Fates(s) && t in s.emitters && s.emitters[t].Visiting? && b in s.cells && s.cells[b] == Holds(h)
    ensures CellFates(s.cells[b := EmittedTag], s.fate[h := Taken(t)])
    ensures OwnerFates(s.owner, s.fate[h := Taken(t)])
    ensures EmitterFates(s.emitters[t := Invoking(h, todo, list)], s.fate[h := Taken(t)])
  {
    CellsElsewhere(s.cells, b, EmittedTag);
  }

  lemma EmitNextFates(s: State, t: Tid, s': State)
    requires Fates(s) && t in s.emitters && EmitNextStep(s, t, s')
    ensures Fates(s')
  {
    var Visiting(todo, list) := s.emitters[t];
    var b := list[0];
    if b in todo && s.cells[b].Holds? {
      TakenFates(s, t, b, s.cells[b].h, todo - {b}, list[1..]);
    } else {
      EmitQuietFates(s, t, s'.emitters[t]);
      CellsElsewhere(s.cells, b, EmittedTag);
    }
  }

  lemma EmitRunFates(s: State, t: Tid, s': State)
    requires Fates(s) && t in s.emitters && EmitRunStep(s, t, s')
    ensures Fates(s')
  {}

  lemma EmitQuietFates(s: State, t: Tid, p: EmitPc)
    requires EmitterFates(s.emitters, s.fate) && t in s.emitters && !s.emitters[t].Invoking? && !p.Invoking?
    ensures EmitterFates(s.emitters[t := p], s.fate)
  {}

  lemma EmplaceBeginFates(s: State, b: Bit, h: Hid, s': State)
    requires Fates(s) && EmplaceBeginStep(s, b, h, s')
    ensures Fates(s')
  {
    EmplaceBeginCells(s, b, h, s');
  }

  lemma EmplaceBeginCells(s: State, b: Bit, h: Hid, s': State)
    requires CellFates(s.cells, s.fate) && EmplaceBeginStep(s, b, h, s')
    ensures CellFates(s'.cells, s'.fate)
  {
    CellsElsewhere(s.cells, b, Empty);
  }

  lemma RefusedFates(s: State, h: Hid)
    requires Fates(s) && InHand(s.owner, h)
    ensures Fates(Refuse(s, h))
  {}

  lemma AcceptedFates(s: State, b: Bit, h: Hid)
    requires Fates(s) && InHand(s.owner, h) && b in s.cells
    ensures Fates(Accept(s, b, h))
  {
    CellsElsewhere(s.cells, b, Holds(h));
    assert s.cells[b := Holds(h)][b] == Holds(h);
    assert InSomeCell(s.cells[b := Holds(h)], h);
  }

  lemma StillInHandFates(s: State, o: OwnerPc, h: Hid)
    requires Fates(s) && InHand(s.owner, h) && InHand(o, h)
    ensures Fates(s.(owner := o))
  {}

  lemma EmplaceMoves(s: State, s': State)
    requires EmplaceStepNext(s, s')
    ensures InHand(s.owner, s.owner.h)
    ensures s' == Refuse(s, s.owner.h) || (s.owner.b in s.cells && s' == Accept(s, s.owner.b, s.owner.h)) ||
            (InHand(s'.owner, s.owner.h) && s' == s.(owner := s'.owner) &&
             (s'.owner.EmplaceCas? ==> s'.owner.b in s.cells && s'.owner.seen == s.cells[s'.owner.b]))
  {
    hide Refuse, Accept;
  }

  lemma EmplaceStepFates(s: State, s': State)
    requires Fates(s) && EmplaceStepNext(s, s')
    ensures Fates(s')
  {
    EmplaceMoves(s, s');
    hide *;
    var h := s.owner.h;
    RefusedFates(s, h);
    if s.owner.b in s.cells && s' == Accept(s, s.owner.b, h) {
      AcceptedFates(s, s.owner.b, h);
    } else if s' != Refuse(s, h) {
      StillInHandFates(s, s'.owner, h);
    }
  }

  lemma ClearedFates(s: State, b: Bit, h: Hid)
    requires Fates(s) && b in s.cells && s.cells[b] == Holds(h) && s.owner.ClearCas?
    ensures Fates(s.(owner := Rest, cells := s.cells[b := Empty], fate := s.fate[h := Cleared]))
  {
    CellsElsewhere(s.cells, b, Empty);
  }

  lemma ClearFates(s: State, b: Bit, s': State)
    requires Fates(s) && (ClearBeginStep(s, b, s') || ClearStepNext(s, s'))
    ensures Fates(s')
  {
    if s.owner.ClearCas? && s'.cells != s.cells {
      ClearedFates(s, s.owner.b, s.owner.seen.h);
    }
  }

  lemma DestroyFates(s: State, s': State)
    requires Fates(s) && (DestroyStep(s, s') || RegisterStep(s, s'))
    ensures Fates(s')
    ensures s'.destroyed && !s.destroyed ==> forall h :: h in s'.fate ==> s'.fate[h] != Accepted
  {
    if s'.destroyed && !s.destroyed {
      forall h | h in s.fate && s.fate[h] == Accepted ensures s'.fate[h] == Freed {
        var x :| x in s.cells && s.cells[x] == Holds(h);
        assert s.cells[x] in s.cells.Values;
      }
    }
  }

  // ---------------------------------------------------------------- all steps, all runs

  lemma StepControl(s: State, a: Action, s': State)
    requires Control(s) && Next(s, a, s')
    ensures Control(s')
  {
    match a
    case Register => DestroyControl(s, s');
    case EmitLoad(t, sig) => EmitLoadControl(s, t, sig, s');
    case EmitCas(t, spurious) => EmitCasControl(s, t, spurious, s');
    case EmitHead(t) => EmitHeadControl(s, t, s');
    case EmitNext(t) => EmitNextControl(s, t, s');
    case EmitRun(t) => EmitRunControl(s, t, s');
    case EmitEnd(t) => EmitRunControl(s, t, s');
    case EmplaceBegin(b, h) => EmplaceBeginControl(s, b, h, s');
    case EmplaceStep => EmplaceStepControl(s, s');
    case ClearBegin(b) => ClearControl(s, b, s');
    case ClearStep => ClearControl(s, 0, s');
    case Destroy => DestroyControl(s, s');
  }

  lemma StepFates(s: State, a: Action, s': State)
    requires Fates(s) && Next(s, a, s')
    ensures Fates(s')
  {
    match a
    case Register => DestroyFates(s, s');
    case EmitNext(t) => EmitNextFates(s, t, s');
    case EmitRun(t) => EmitRunFates(s, t, s');
    case EmplaceBegin(b, h) => EmplaceBeginFates(s, b, h, s');
    case EmplaceStep => EmplaceStepFates(s, s');
    case ClearBegin(b) => ClearFates(s, b, s');
    case ClearStep => ClearFates(s, 0, s');
    case Destroy => DestroyFates(s, s');
    case _ => EmitQuietFates(s, a.t, s'.emitters[a.t]);
  }

  lemma {:induction false} RunInv(r: Run)
    requires IsRun(r)
    ensures Inv(r.s)
  {
    match r
    case Start(_) =>
    case Then(run, a, s') =>
      RunInv(run);
      StepControl(run.s, a, s');
      StepFates(run.s, a, s');
  }

  /** invoke never exchanges out the tag: the cell that a turn of the loop is about to change is there
      and nobody has put the tag in it. */
  lemma InvokeNeverMeetsTag(r: Run, t: Tid)
    requires IsRun(r) && t in r.s.emitters && r.s.emitters[t].Visiting?
    requires r.s.emitters[t].list != [] && r.s.emitters[t].list[0] in r.s.emitters[t].todo
    ensures r.s.emitters[t].list[0] in r.s.cells && r.s.cells[r.s.emitters[t].list[0]] != EmittedTag
  {
    RunInv(r);
  }

  /** The asserts of emplace and clear: their compare-exchange fails only against the tag. */
  lemma CasFailsOnlyOnTag(r: Run)
    requires IsRun(r) && (r.s.owner.EmplaceCas? || r.s.owner.ClearCas?)
    ensures r.s.owner.b in r.s.cells
    ensures r.s.cells[r.s.owner.b] == r.s.owner.seen || r.s.cells[r.s.owner.b] == EmittedTag
  {
    RunOwnerCell(r);
  }

  ghost predicate OwnerCell(s: State) {
    s.owner.EmplaceCas? || s.owner.ClearCas? ==>
      s.owner.b in s.cells && (s.cells[s.owner.b] == s.owner.seen || s.cells[s.owner.b] == EmittedTag)
  }

  lemma {:induction false} RunOwnerCell(r: Run)
    requires IsRun(r)
    ensures OwnerCell(r.s)
  {
    match r
    case Start(_) =>
    case Then(run, a, s') =>
      RunOwnerCell(run);
      StepOwnerCell(run.s, a, s');
  }

  lemma StepOwnerCell(s: State, a: Action, s': State)
    requires OwnerCell(s) && Next(s, a, s')
    ensures OwnerCell(s')
  {
    if a.EmplaceStep? {
      EmplaceOwnerCell(s, s');
    } else if a.ClearStep? {
      ClearOwnerCell(s, s');
    } else if !a.Destroy? && !a.EmplaceBegin? {
      assert s'.owner == s.owner || !s'.owner.EmplaceCas?;
    }
  }

  lemma EmplaceOwnerCell(s: State, s': State)
    requires EmplaceStepNext(s, s')
    ensures OwnerCell(s')
  {
    EmplaceMoves(s, s');
    hide EmplaceStepNext;
  }

  lemma ClearOwnerCell(s: State, s': State)
    requires ClearStepNext(s, s')
    ensures OwnerCell(s')
  {}

  // ---------------------------------------------------------------- every bit goes to one emitter

  /** The bits that a step hands to its emitter. */
  ghost function Handed(s: State, a: Action, s': State): Bits {
    if a.EmitCas? && a.t in s.emitters && s.emitters[a.t].Loaded? && a.t in s'.emitters && s'.emitters[a.t].HasGrant?
    then s'.emitters[a.t].granted else {}
  }

  /** The emitters that were handed bit `b` during a run, in order. */
  ghost function Recipients(r: Run, b: Bit): seq<Tid> {
    match r
    case Start(_) => []
    case Then(run, a, s') => Recipients(run, b) + (if b in Handed(run.s, a, s') then [a.t] else [])
  }

  lemma CasHands(s: State, t: Tid, spurious: bool, s': State)
    requires t in s.emitters && EmitCasStep(s, t, spurious, s')
    ensures var handed := Handed(s, EmitCas(t, spurious), s');
            s'.word == s.word + handed && s.word * handed == {}
  {
    EmitCasMoves(s, t, spurious, s');
    hide EmitCasStep;
    var sig := s.emitters[t].sig;
    assert s.word + sig == s.word + (sig - s.word);
  }

  lemma HandedIsNew(s: State, a: Action, s': State)
    requires Next(s, a, s')
    ensures s'.word == s.word + Handed(s, a, s') && s.word * Handed(s, a, s') == {}
  {
    hide EmitCasStep;
    if a.EmitCas? {
      CasHands(s, a.t, a.spurious, s');
    }
  }

  /** Each trigger-once bit is granted to exactly one emits, however many race for it. */
  lemma {:induction false} GrantedOnce(r: Run, b: Bit)
    requires IsRun(r)
    ensures b !in r.s.word ==> Recipients(r, b) == []
    ensures b in r.s.word ==> b in r.s.grants && Recipients(r, b) == [r.s.grants[b]]
  {
    match r
    case Start(_) =>
    case Then(run, a, s') =>
      GrantedOnce(run, b);
      HandedIsNew(run.s, a, s');
      assert b in s'.word <==> b in run.s.word || b in Handed(run.s, a, s');
      if b in run.s.word {
        assert b !in run.s.word * Handed(run.s, a, s');
      }
      GrantsKept(run.s, a, s', b);
  }

  lemma GrantsKept(s: State, a: Action, s': State, b: Bit)
    requires Next(s, a, s')
    ensures b in Handed(s, a, s') ==> b in s'.grants && s'.grants[b] == a.t
    ensures b in s.grants && b !in Handed(s, a, s') ==> b in s'.grants && s'.grants[b] == s.grants[b]
  {}

  // ---------------------------------------------------------------- every handler meets one fate

  /** The only changes of fate there are; the last five fates are final. */
  ghost predicate Moves(f: Fate, f': Fate) {
    match f
    case Offered => f' == Refused || f' == Accepted
    case Accepted => f'.Taken? || f' == Cleared || f' == Replaced || f' == Freed
    case Taken(t) => f' == Ran(t)
    case _ => false
  }

  lemma FateMoves(s: State, a: Action, s': State, h: Hid)
    requires Fates(s) && Next(s, a, s') && h in s.fate
    ensures h in s'.fate && (s'.fate[h] == s.fate[h] || Moves(s.fate[h], s'.fate[h]))
  {
    if a.EmplaceStep? {
      OwnerHandler(s);
      EmplaceFateMoves(s, s', h);
    } else if a.ClearStep? {
      ClearFateMoves(s, s', h);
    }
  }

  lemma AcceptedMoves(fate: map<Hid, Fate>, offered: Hid, seen: Cell, h: Hid)
    requires offered in fate && fate[offered] == Offered && h in fate
    requires seen.Holds? ==> seen.h in fate && fate[seen.h] == Accepted
    ensures var fate' := (if seen.Holds? then fate[seen.h := Replaced] else fate)[offered := Accepted];
            h in fate' && (fate'[h] == fate[h] || Moves(fate[h], fate'[h]))
  {}

  lemma EmplaceFateMoves(s: State, s': State, h: Hid)
    requires Fates(s) && EmplaceStepNext(s, s') && h in s.fate && s.owner.h in s.fate && s.fate[s.owner.h] == Offered
    ensures h in s'.fate && (s'.fate[h] == s.fate[h] || Moves(s.fate[h], s'.fate[h]))
  {
    hide OwnerFates, EmitterFates, InSomeCell;
    if s.owner.EmplaceCas? && s.cells[s.owner.b] == s.owner.seen {
      AcceptedMoves(s.fate, s.owner.h, s.owner.seen, h);
      hide Moves;
    } else {
      hide CellFates;
    }
  }

  lemma ClearFateMoves(s: State, s': State, h: Hid)
    requires Fates(s) && ClearStepNext(s, s') && h in s.fate
    ensures h in s'.fate && (s'.fate[h] == s.fate[h] || Moves(s.fate[h], s'.fate[h]))
  {}

  lemma OwnerHandler(s: State)
    requires Fates(s)
    ensures s.owner.EmplaceCheck? || s.owner.EmplaceLoad? || s.owner.EmplaceCas? ==>
      InHand(s.owner, s.owner.h) && s.owner.h in s.fate && s.fate[s.owner.h] == Offered
  {
    if s.owner.EmplaceCheck? || s.owner.EmplaceLoad? || s.owner.EmplaceCas? {
      assert InHand(s.owner, s.owner.h);
    }
  }

  /** How often `h` was called during a run. */
  ghost function Calls(r: Run, h: Hid): nat {
    match r
    case Start(_) => 0
    case Then(run, a, _) =>
      var calls := a.EmitRun? && a.t in run.s.emitters &&
                   run.s.emitters[a.t].Invoking? && run.s.emitters[a.t].h == h;
      Calls(run, h) + (if calls then 1 else 0)
  }

  lemma EmplaceRunsNothing(s: State, s': State, h: Hid)
    requires EmplaceStepNext(s, s') && h in s'.fate && s'.fate[h].Ran?
    ensures h in s.fate && s.fate[h].Ran?
  {}

  lemma ClearRunsNothing(s: State, s': State, h: Hid)
    requires ClearStepNext(s, s') || DestroyStep(s, s')
    requires h in s'.fate && s'.fate[h].Ran?
    ensures h in s.fate && s.fate[h].Ran?
  {}

  lemma RanMeansCalled(s: State, a: Action, s': State, h: Hid)
    requires Fates(s) && Next(s, a, s') && h in s'.fate && s'.fate[h].Ran?
    ensures h in s.fate
    ensures s.fate[h].Ran? || (a.EmitRun? && s.emitters[a.t].h == h)
  {
    hide CellFates, OwnerFates;
    if a.EmplaceStep? {
      EmplaceRunsNothing(s, s', h);
    } else if a.ClearStep? || a.Destroy? {
      ClearRunsNothing(s, s', h);
    }
  }

  lemma {:induction false} CallsMatchFate(r: Run, h: Hid)
    requires IsRun(r)
    ensures Calls(r, h) == if h in r.s.fate && r.s.fate[h].Ran? then 1 else 0
  {
    match r
    case Start(_) =>
    case Then(run, a, s') =>
      CallsMatchFate(run, h);
      RunInv(run);
      if h in run.s.fate {
        FateMoves(run.s, a, s', h);
      }
      if h in s'.fate && s'.fate[h].Ran? {
        RanMeansCalled(run.s, a, s', h);
      }
  }

  /** A handler is called at most once, and only if it meets that fate; once the signal is gone each
      handler ever offered has been refused, called, cleared, replaced or freed, and nothing else. */
  lemma OneFateEach(r: Run, h: Hid)
    requires IsRun(r) && h in r.s.fate
    ensures Calls(r, h) == if r.s.fate[h].Ran? then 1 else 0
    ensures r.s.destroyed ==> r.s.fate[h] in {Refused, Cleared, Replaced, Freed} || r.s.fate[h].Ran?
  {
    hide Fates, Control, Next;
    CallsMatchFate(r, h);
    if r.s.destroyed {
      RunInv(r.run);
      OnlyDestroy(r.run.s, r.a, r.s);
      DestroyedFate(r.run.s, r.s, h);
    }
  }

  lemma EmplaceDestroysNothing(s: State, s': State)
    requires EmplaceStepNext(s, s')
    ensures s'.destroyed == s.destroyed
  {
    EmplaceMoves(s, s');
    hide EmplaceStepNext;
  }

  lemma ClearDestroysNothing(s: State, b: Bit, s': State)
    requires ClearStepNext(s, s') || ClearBeginStep(s, b, s')
    ensures s'.destroyed == s.destroyed
  {}

  lemma EmitDestroysNothing(s: State, t: Tid, s': State)
    requires t in s.emitters && (EmitNextStep(s, t, s') || EmitRunStep(s, t, s') || EmitEndStep(s, t, s'))
    ensures s'.destroyed == s.destroyed
  {}

  lemma OnlyDestroy(s: State, a: Action, s': State)
    requires Next(s, a, s') && s'.destroyed
    ensures DestroyStep(s, s')
  {
    hide EmplaceStepNext, ClearBeginStep, ClearStepNext, EmitNextStep, EmitRunStep, EmitEndStep;
    match a
    case EmplaceStep => EmplaceDestroysNothing(s, s');
    case ClearStep => ClearDestroysNothing(s, 0, s');
    case ClearBegin(b) => ClearDestroysNothing(s, b, s');
    case EmitNext(t) => EmitDestroysNothing(s, t, s');
    case EmitRun(t) => EmitDestroysNothing(s, t, s');
    case EmitEnd(t) => EmitDestroysNothing(s, t, s');
    case _ =>
  }

  lemma DestroyedFate(s: State, s': State, h: Hid)
    requires Fates(s) && DestroyStep(s, s') && h in s'.fate
    ensures s'.fate[h] in {Refused, Cleared, Replaced, Freed} || s'.fate[h].Ran?
  {
    DestroyFates(s, s');
    hide CellFates;
  }

  /** No accepted handler is passed over: when the emits that was granted a bit of the slot's filter is
      over, no handler is left in the cell of that bit and none it took is still to run. */
  lemma NoneLeftUnrun(r: Run, b: Bit, t: Tid)
    requires IsRun(r) && b in r.s.filter && Recipients(r, b) == [t] && t in r.s.emitters
    requires r.s.emitters[t].Quiet? || r.s.emitters[t].Loaded?
    ensures b in r.s.cells ==> !r.s.cells[b].Holds?
    ensures forall h :: h in r.s.fate ==> r.s.fate[h] != Taken(t)
  {
    RunInv(r);
    GrantedOnce(r, b);
    assert !Coming(r.s, b);
  }
}
