/** Publishing one approved Pin: the connector's method, and the same work cut into the
    atomic steps at which other workers, crashes and the provider can interfere. */
module PublishWorker {
  import opened Wrappers
  import opened ApprovalGateway
  import opened PublishLedger

  // ------------------------------------------------------------------
  // Results
  // ------------------------------------------------------------------

  datatype Defect =
    | EmptyContent | WorkerNotExplicit | KeyNotApprovalDerived
    | BoardNameMissing | PinTextMissing | LinkMissing | LinkInvalid | ImageMissing | ImageInvalid
    | OwnerMissing | VaultUnavailable | NotConnected | TokenExpired

  datatype PublishResult =
    | Defective(defect: Defect)
    | ReserveFailed
    | DuplicateRecord(pin: PinId)
    | InProgress
    | PublishUncertain
    | NothingRequested
    | PublishRefused
    | PublishedPin(pin: PinId)
    | Unrecorded(pin: PinId)
    | Raised

  predicate Succeeded(r: PublishResult) {
    r.PublishedPin? || r.DuplicateRecord?
  }

  /** The answer for a key that somebody already holds. */
  function ExistingOutcome(row: Row): PublishResult {
    if row.status == Published && row.pin.Some? then DuplicateRecord(row.pin.value)
    else if row.status == Publishing then InProgress
    else PublishUncertain
  }

  // ------------------------------------------------------------------
  // The environment of one call
  // ------------------------------------------------------------------

  /** `BoardKnown` covers an explicit board id and a name found by the lookup. */
  datatype Lookup = BoardKnown | BoardUnusable | Unreachable | LookupRaised

  /** `Accepted` is a 200 or 201, `Refused` any 4xx, `Unexpected` every other status code. */
  datatype Response = Accepted(pin: Option<PinId>) | Refused | Unexpected | NoResponse | ResponseRaised

  datatype Input = Input(
    contentPresent: bool, workerExplicit: bool, key: Option<ApprovalId>,
    boardName: bool, pinText: bool, link: bool, linkValid: bool, image: bool, imageValid: bool,
    owner: Option<User>, vaultReadable: bool, connected: bool, tokenExpired: bool)

  function FirstDefect(i: Input): Option<Defect> {
    if !i.contentPresent then Some(EmptyContent)
    else if !i.workerExplicit then Some(WorkerNotExplicit)
    else if i.key == None then Some(KeyNotApprovalDerived)
    else if !i.boardName then Some(BoardNameMissing)
    else if !i.pinText then Some(PinTextMissing)
    else if !i.link then Some(LinkMissing)
    else if !i.linkValid then Some(LinkInvalid)
    else if !i.image then Some(ImageMissing)
    else if !i.imageValid then Some(ImageInvalid)
    else if i.owner == None then Some(OwnerMissing)
    else if !i.vaultReadable then Some(VaultUnavailable)
    else if !i.connected then Some(NotConnected)
    else if i.tokenExpired then Some(TokenExpired)
    else None
  }

  datatype Env = Env(claim: Fault, reclaim: Fault, lookup: Lookup, response: Response, settle: Fault)

  // ------------------------------------------------------------------
  // The steps
  // ------------------------------------------------------------------

  /** What is about to be written over `publishing`, and what the caller is then told. */
  datatype Verdict = AsFailed(told: PublishResult) | AsUncertain | AsPublished(pin: PinId)

  function Target(v: Verdict): PinStatus {
    match v case AsFailed(_) => Failed case AsUncertain => Uncertain case AsPublished(_) => Published
  }

  function VerdictPin(v: Verdict): Option<PinId> {
    if v.AsPublished? then Some(v.pin) else None
  }

  datatype Pc =
    | Checking
    | Claiming
    | Reclaiming(seen: Row)
    | Holding
    | Awaiting
    | Settling(verdict: Verdict)
    | Finished(result: PublishResult)

  function Check(defect: Option<Defect>): Pc {
    if defect.Some? then Finished(Defective(defect.value)) else Claiming
  }

  function Claim(cell: Option<Row>, owner: User, fault: Fault): (Pc, Option<Row>) {
    var (cell', reply) := ClaimCell(cell, owner, fault);
    var pc := match reply
      case Unconfirmed => Finished(ReserveFailed)
      case Created(_) => Holding
      case Existing(row) => if row.status == Failed then Reclaiming(row) else Finished(ExistingOutcome(row));
    (pc, cell')
  }

  function Reclaim(seen: Row, cell: Option<Row>, owner: User, fault: Fault): (Pc, Option<Row>) {
    var (cell', won) := TransitionCell(cell, owner, Failed, Publishing, None, fault);
    (if won.Some? then Holding else Finished(ExistingOutcome(seen)), cell')
  }

  /** Sending the create request is the step into `Awaiting`. */
  function Prepare(lookup: Lookup): Pc {
    match lookup
    case BoardKnown => Awaiting
    case BoardUnusable => Settling(AsFailed(NothingRequested))
    case Unreachable => Settling(AsFailed(NothingRequested))
    case LookupRaised => Finished(Raised)
  }

  function Receive(response: Response): Pc {
    match response
    case Accepted(Some(pin)) => Settling(AsPublished(pin))
    case Accepted(None) => Settling(AsUncertain)
    case Refused => Settling(AsFailed(PublishRefused))
    case Unexpected => Settling(AsUncertain)
    case NoResponse => Settling(AsUncertain)
    case ResponseRaised => Finished(Raised)
  }

  function Settle(verdict: Verdict, cell: Option<Row>, owner: User, fault: Fault): (Pc, Option<Row>) {
    var (cell', settled) := TransitionCell(cell, owner, Publishing, Target(verdict), VerdictPin(verdict), fault);
    var told := match verdict
      case AsFailed(told) => told
      case AsUncertain => PublishUncertain
      case AsPublished(pin) => if settled.Some? then PublishedPin(pin) else Unrecorded(pin);
    (Finished(told), cell')
  }

  /** One worker alone against one row: the program counter, the row, and the requests sent. */
  datatype Config = Config(pc: Pc, cell: Option<Row>, sent: nat)

  function Step(c: Config, defect: Option<Defect>, owner: User, env: Env): Config {
    match c.pc
    case Checking => c.(pc := Check(defect))
    case Claiming => var (pc, cell) := Claim(c.cell, owner, env.claim); c.(pc := pc, cell := cell)
    case Reclaiming(seen) => var (pc, cell) := Reclaim(seen, c.cell, owner, env.reclaim); c.(pc := pc, cell := cell)
    case Holding =>
      var pc := Prepare(env.lookup);
      c.(pc := pc, sent := if pc == Awaiting then c.sent + 1 else c.sent)
    case Awaiting => c.(pc := Receive(env.response))
    case Settling(verdict) => var (pc, cell) := Settle(verdict, c.cell, owner, env.settle); c.(pc := pc, cell := cell)
    case Finished(_) => c
  }

  function Steps(n: nat, c: Config, defect: Option<Defect>, owner: User, env: Env): Config {
    if n == 0 then c else Steps(n - 1, Step(c, defect, owner, env), defect, owner, env)
  }

  /** Six steps finish every undisturbed call. */
  function Undisturbed(cell: Option<Row>, defect: Option<Defect>, owner: User, env: Env): Config {
    Steps(6, Config(Checking, cell, 0), defect, owner, env)
  }

  lemma UndisturbedUnrolled(cell: Option<Row>, defect: Option<Defect>, owner: User, env: Env)
    ensures var s := (c: Config) => Step(c, defect, owner, env);
            Undisturbed(cell, defect, owner, env) == s(s(s(s(s(s(Config(Checking, cell, 0)))))))
  {
    var s := (c: Config) => Step(c, defect, owner, env);
    var c := Config(Checking, cell, 0);
    assert Steps(6, c, defect, owner, env) == Steps(5, s(c), defect, owner, env);
    assert Steps(5, s(c), defect, owner, env) == Steps(4, s(s(c)), defect, owner, env);
    assert Steps(4, s(s(c)), defect, owner, env) == Steps(3, s(s(s(c))), defect, owner, env);
    assert Steps(3, s(s(s(c))), defect, owner, env) == Steps(2, s(s(s(s(c)))), defect, owner, env);
    assert Steps(2, s(s(s(s(c)))), defect, owner, env) == Steps(1, s(s(s(s(s(c))))), defect, owner, env);
  }

  /** The configuration once the key is taken, or the call refused. */
  function Reserved(cell: Option<Row>, owner: User, env: Env): Config {
    var c := Step(Step(Config(Checking, cell, 0), None, owner, env), None, owner, env);
    if c.pc.Reclaiming? then Step(c, None, owner, env) else c
  }

  lemma UndisturbedAfterReserving(cell: Option<Row>, owner: User, env: Env)
    ensures var c := Reserved(cell, owner, env);
            var s := (c: Config) => Step(c, None, owner, env);
            && (c.pc.Finished? || c.pc.Holding?) && c.sent == 0
            && Undisturbed(cell, None, owner, env) == if c.pc.Finished? then c else s(s(s(c)))
  {
    UndisturbedUnrolled(cell, None, owner, env);
  }

  // ------------------------------------------------------------------
  // The connector
  // ------------------------------------------------------------------

  class PinterestConnector {
    const store: PinPublishStore

    constructor (store: PinPublishStore)
      ensures this.store == store
    {
      this.store := store;
    }

    /** Publish in one go. Undisturbed, the method ends with the row, the result and the number
        of create requests that the six atomic steps end with. */
    method PublishContent(input: Input, env: Env) returns (result: PublishResult, sent: nat)
      modifies store
      ensures FirstDefect(input).Some? ==>
                result == Defective(FirstDefect(input).value) && sent == 0 && store.rows == old(store.rows)
      ensures FirstDefect(input) == None ==>
                var end := Undisturbed(Cell(old(store.rows), input.key.value), None, input.owner.value, env);
                && end.pc == Finished(result) && sent == end.sent
                && store.rows == SetCell(old(store.rows), input.key.value, end.cell)
    {
      var defect := FirstDefect(input);
      if defect.Some? {
        return Defective(defect.value), 0;
      }
      var key, owner := input.key.value, input.owner.value;
      UndisturbedAfterReserving(Cell(store.rows, key), owner, env);
      var refused := Reserve(owner, key, env);
      if refused.Some? {
        return refused.value, 0;
      }
      result, sent := SendAndSettle(owner, key, env);
    }

    /** Take the key, from nothing or over a failed row; or tell what its holder has come to. */
    method Reserve(owner: User, key: ApprovalId, env: Env) returns (refused: Option<PublishResult>)
      modifies store
      ensures var c := Reserved(Cell(old(store.rows), key), owner, env);
              && c.pc == (if refused.Some? then Finished(refused.value) else Holding)
              && store.rows == SetCell(old(store.rows), key, c.cell) && Cell(store.rows, key) == c.cell
    {
      if key in store.rows {
        assert store.rows == store.rows[key := store.rows[key]];
      }
      var claim := store.Claim(owner, key, env.claim);
      if claim.Unconfirmed? {
        return Some(ReserveFailed);
      }
      if claim.Existing? {
        var existing := claim.row;
        var reclaimed: Option<Row> := None;
        if existing.status == Failed {
          reclaimed := store.Transition(owner, key, Failed, Publishing, None, env.reclaim);
        }
        if reclaimed == None {
          return Some(ExistingOutcome(existing));
        }
      }
      return None;
    }

    /** The part of the method that runs with the reservation held. */
    method SendAndSettle(owner: User, key: ApprovalId, env: Env) returns (result: PublishResult, sent: nat)
      modifies store
      ensures var s := (c: Config) => Step(c, None, owner, env);
              var end := s(s(s(Config(Holding, Cell(old(store.rows), key), 0))));
              && end.pc == Finished(result) && sent == end.sent
              && store.rows == SetCell(old(store.rows), key, end.cell)
    {
      sent := 0;
      if key in store.rows {
        assert store.rows == store.rows[key := store.rows[key]];
      }
      match env.lookup {
        case LookupRaised =>
          return Raised, 0;
        case BoardUnusable =>
          var _ := store.Transition(owner, key, Publishing, Failed, None, env.settle);
          return NothingRequested, 0;
        case Unreachable =>
          var _ := store.Transition(owner, key, Publishing, Failed, None, env.settle);
          return NothingRequested, 0;
        case BoardKnown =>
          sent := 1;
      }
      match env.response {
        case Refused =>
          var _ := store.Transition(owner, key, Publishing, Failed, None, env.settle);
          return PublishRefused, sent;
        case Unexpected =>
          var _ := store.Transition(owner, key, Publishing, Uncertain, None, env.settle);
          return PublishUncertain, sent;
        case NoResponse =>
          var _ := store.Transition(owner, key, Publishing, Uncertain, None, env.settle);
          return PublishUncertain, sent;
        case ResponseRaised =>
          return Raised, sent;
        case Accepted(pin) =>
          if pin == None {
            var _ := store.Transition(owner, key, Publishing, Uncertain, None, env.settle);
            return PublishUncertain, sent;
          }
          var settled := store.Transition(owner, key, Publishing, Published, pin, env.settle);
          return if settled == None then Unrecorded(pin.value) else PublishedPin(pin.value), sent;
      }
    }
  }

  /** What an undisturbed call promises its caller, in terms of the row it found. A request
      goes out at most once, and only for a key nobody had or whose last attempt failed; a
      reported success names the pin in a published row; a row that was published, uncertain
      or being published is left exactly as it was. */
  lemma UndisturbedPromises(cell: Option<Row>, owner: User, env: Env)
    ensures var end := Undisturbed(cell, None, owner, env);
            && end.pc.Finished?
            && end.sent <= 1
            && (end.sent == 1 ==> cell == None || (cell.value.owner == owner && cell.value.status == Failed))
            && (Succeeded(end.pc.result) ==> end.cell == Some(Row(owner, Published, Some(end.pc.result.pin))))
            && (cell.Some? && cell.value.status != Failed ==> end.cell == cell)
            && (end.sent == 1 ==> end.cell.Some?)
            && (end.sent == 1 ==>
                  (end.cell.value.status == Failed <==> env.response == Refused && env.settle != LostBefore))
  {
    UndisturbedUnrolled(cell, None, owner, env);
  }

  // ------------------------------------------------------------------
  // What one call answers
  // ------------------------------------------------------------------

  /** What must hold of the input for the call not to be told this defect. */
  predicate Passes(i: Input, d: Defect) {
    match d
    case EmptyContent => i.contentPresent
    case WorkerNotExplicit => i.workerExplicit
    case KeyNotApprovalDerived => i.key.Some?
    case BoardNameMissing => i.boardName
    case PinTextMissing => i.pinText
    case LinkMissing => i.link
    case LinkInvalid => i.linkValid
    case ImageMissing => i.image
    case ImageInvalid => i.imageValid
    case OwnerMissing => i.owner.Some?
    case VaultUnavailable => i.vaultReadable
    case NotConnected => i.connected
    case TokenExpired => !i.tokenExpired
  }

  /** The order in which the defects are looked for. */
  function Rank(d: Defect): nat {
    match d
    case EmptyContent => 0 case WorkerNotExplicit => 1 case KeyNotApprovalDerived => 2
    case BoardNameMissing => 3 case PinTextMissing => 4 case LinkMissing => 5 case LinkInvalid => 6
    case ImageMissing => 7 case ImageInvalid => 8 case OwnerMissing => 9
    case VaultUnavailable => 10 case NotConnected => 11 case TokenExpired => 12
  }

  /** A call is defective exactly when something it needs is missing, and is told the first such thing. */
  lemma DefectIsTheFirst(i: Input, d: Defect)
    ensures FirstDefect(i) == None ==> Passes(i, d)
    ensures FirstDefect(i).Some? ==> !Passes(i, FirstDefect(i).value)
    ensures FirstDefect(i).Some? && Rank(d) < Rank(FirstDefect(i).value) ==> Passes(i, d)
  {
  }

  /** The call gets hold of its key: nobody had it, or its owner's last attempt failed, and no reply is lost. */
  predicate Takes(cell: Option<Row>, owner: User, env: Env) {
    env.claim == NoFault
    && (cell == None || (cell.value.owner == owner && cell.value.status == Failed && env.reclaim == NoFault))
  }

  /** A call that does not get hold of its key sends nothing, and is told why. */
  lemma RefusedCallAnswers(cell: Option<Row>, owner: User, env: Env)
    requires !Takes(cell, owner, env)
    ensures var end := Undisturbed(cell, None, owner, env);
            end.sent == 0
            && (env.claim != NoFault ==> end.pc == Finished(ReserveFailed))
            && (env.claim != NoFault ==> end.cell == if cell == None && env.claim == LostAfter
                                                     then Some(Row(owner, Publishing, None)) else cell)
            && (env.claim == NoFault && cell.value.owner != owner ==>
                  end.pc == Finished(ReserveFailed) && end.cell == cell)
            && (env.claim == NoFault && cell.value.owner == owner ==>
                  match cell.value.status
                  case Publishing => end.pc == Finished(InProgress) && end.cell == cell
                  case Uncertain => end.pc == Finished(PublishUncertain) && end.cell == cell
                  case Published =>
                    end.cell == cell
                    && end.pc == Finished(if cell.value.pin.Some? then DuplicateRecord(cell.value.pin.value)
                                          else PublishUncertain)
                  case Failed =>
                    end.pc == Finished(PublishUncertain)
                    && end.cell == if env.reclaim == LostAfter then Some(cell.value.(status := Publishing)) else cell)
  {
    UndisturbedUnrolled(cell, None, owner, env);
  }

  /** The row a call settles as, unless its last write is lost and the reservation stays. */
  predicate SettlesAs(cell: Option<Row>, env: Env, owner: User, status: PinStatus) {
    cell.Some? && cell.value.owner == owner
    && cell.value.status == if env.settle == LostBefore then Publishing else status
  }

  /** A call that holds its key: what it sends, the row it leaves, and what it is told. */
  lemma HoldingCallAnswers(cell: Option<Row>, owner: User, env: Env)
    requires Takes(cell, owner, env)
    ensures var end := Undisturbed(cell, None, owner, env);
            (end.sent == 1 <==> env.lookup == BoardKnown) && end.sent <= 1
            && match env.lookup
               case LookupRaised => end.pc == Finished(Raised) && end.cell.Some? && end.cell.value.status == Publishing
               case BoardUnusable => end.pc == Finished(NothingRequested) && SettlesAs(end.cell, env, owner, Failed)
               case Unreachable => end.pc == Finished(NothingRequested) && SettlesAs(end.cell, env, owner, Failed)
               case BoardKnown =>
                 match env.response
                 case Refused => end.pc == Finished(PublishRefused) && SettlesAs(end.cell, env, owner, Failed)
                 case Unexpected => end.pc == Finished(PublishUncertain) && SettlesAs(end.cell, env, owner, Uncertain)
                 case NoResponse => end.pc == Finished(PublishUncertain) && SettlesAs(end.cell, env, owner, Uncertain)
                 case ResponseRaised =>
                   end.pc == Finished(Raised) && end.cell.Some? && end.cell.value.status == Publishing
                 case Accepted(None) => end.pc == Finished(PublishUncertain)
                                        && SettlesAs(end.cell, env, owner, Uncertain)
                 case Accepted(Some(pin)) =>
                   end.pc == Finished(if env.settle == NoFault then PublishedPin(pin) else Unrecorded(pin))
                   && SettlesAs(end.cell, env, owner, Published)
                   && (env.settle != LostBefore ==> end.cell.value.pin == Some(pin))
  {
    UndisturbedUnrolled(cell, None, owner, env);
  }
}
