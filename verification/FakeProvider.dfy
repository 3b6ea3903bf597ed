/** The stand-in for the mail provider: its domains, its mail, its idempotency
    index, the journal it appends to and the file it restarts from. A request
    can break off at the reading of its body and at each of its two writes. */
module FakeProvider {
  import opened Common

  type Id = nat

  // Text as the process holds it: code points, lone surrogates among them.
  type Text = seq<nat>

  datatype Domain = Domain(name: Text, verified: bool)

  datatype Mail = Mail(sender: Text, recipients: seq<Text>, subject: Text, text: Text, headers: seq<(Text, Text)>)

  // Whether UTF-8 has an encoding for it.
  predicate Encodes(t: Text) {
    forall c :: c in t ==> !(0xD800 <= c < 0xE000)
  }

  predicate MailEncodes(m: Mail) {
    && Encodes(m.sender) && Encodes(m.subject) && Encodes(m.text)
    && (forall r :: r in m.recipients ==> Encodes(r))
    && (forall h :: h in m.headers ==> Encodes(h.0) && Encodes(h.1))
  }

  // A body that is not JSON; one that is, and that the handler cannot use: no
  // object, or headers that are there and are no mapping; or one it can.
  datatype Body<T> = NotJson | Unusable | Usable(value: T)

  datatype Line = Line(id: Id, key: string)

  datatype Snapshot = Snapshot(domains: map<Id, Domain>, byKey: map<string, Id>, mail: map<Id, Mail>)

  // A state file that was cut off while it was written cannot be read again.
  datatype File = NoFile | Holds(snapshot: Snapshot) | Garbled

  // The process, up unless it failed to start, the journal and the state file.
  datatype State = State(up: bool, now: Snapshot, journal: seq<Line>, file: File)

  const NOTHING := Snapshot(map[], map[], map[])

  const BLANK := State(true, NOTHING, [], NoFile)

  datatype Request =
    | GetDomain(id: Id)
    | GetMail(id: Id)
    | CreateDomain(name: Body<Text>)
    | Verify(id: Id)
    | Deposit(deposited: Body<Mail>)
    | Send(key: string, body: Body<Mail>)

  // What a read shows, or a code and an identifier. `Broken` is a request whose
  // handler raised: no answer.
  datatype Answer =
    | Answer(code: nat, about: Option<Id>)
    | ShowsDomain(domainId: Id, domain: Domain)
    | ShowsMail(mailId: Id, mail: Mail)
    | Broken

  // Whether it was started with `--etat` and with `--journal`.
  datatype Options = Options(keeps: bool, journals: bool)

  // What the disk does to a request: whether the journal's write goes through,
  // and whether the state file is written, cannot be opened, or is cut off.
  datatype Saving = Through | Refused | CutOff

  datatype Disk = Disk(journal: bool, state: Saving)

  // ------------------------------------------------------------------
  // The requests, as functions of the state
  // ------------------------------------------------------------------

  predicate StateRaises(o: Options, disk: Disk) {
    o.keeps && !disk.state.Through?
  }

  // The journal is opened as UTF-8 and written unescaped.
  predicate JournalRaises(o: Options, m: Mail, disk: Disk) {
    o.journals && (!disk.journal || !MailEncodes(m))
  }

  // `retenir`: the file is rewritten, if there is one, and the request answered.
  function Saved(o: Options, s: State, disk: Disk, answer: Answer): (State, Answer) {
    if !o.keeps then (s, answer)
    else match disk.state
      case Through => (s.(file := Holds(s.now)), answer)
      case Refused => (s, Broken)
      case CutOff => (s.(file := Garbled), Broken)
  }

  predicate Named(domains: map<Id, Domain>, id: Id, name: Text) {
    id in domains && domains[id].name == name
  }

  predicate HasName(domains: map<Id, Domain>, name: Text) {
    exists id :: id in domains && Named(domains, id, name)
  }

  ghost function Created(o: Options, s: State, name: Body<Text>, mint: Id, disk: Disk): (State, Answer) {
    if !name.Usable? then (s, Broken)
    else if HasName(s.now.domains, name.value) then
      var id :| id in s.now.domains && Named(s.now.domains, id, name.value);
      (s, Answer(200, Some(id)))
    else Saved(o, s.(now := s.now.(domains := s.now.domains[mint := Domain(name.value, false)])), disk, Answer(201, Some(mint)))
  }

  function Verified(o: Options, s: State, id: Id, disk: Disk): (State, Answer) {
    if id !in s.now.domains then (s, Answer(404, None))
    else
      var d := s.now.domains[id];
      Saved(o, s.(now := s.now.(domains := s.now.domains[id := d.(verified := true)])), disk, Answer(200, Some(id)))
  }

  const FROM: Text := [0x46, 0x72, 0x6F, 0x6D]

  // A third party's mail has one header, its sender's.
  function Received(m: Mail): Mail {
    m.(headers := [(FROM, m.sender)])
  }

  function Deposited(o: Options, s: State, mail: Body<Mail>, mint: Id, disk: Disk): (State, Answer) {
    if !mail.Usable? then (s, Broken)
    else Saved(o, s.(now := s.now.(mail := s.now.mail[mint := Received(mail.value)])), disk, Answer(200, Some(mint)))
  }

  function Keyed(byKey: map<string, Id>, key: string, mint: Id): map<string, Id> {
    if key == "" then byKey else byKey[key := mint]
  }

  // The body is parsed, the key is taken, the mail is put, the line is written,
  // the state is kept: in that order, and each can raise.
  function Sent(o: Options, s: State, key: string, body: Body<Mail>, mint: Id, disk: Disk): (State, Answer) {
    if body.NotJson? then (s, Broken)
    else if key != "" && key in s.now.byKey then (s, Answer(200, Some(s.now.byKey[key])))
    else
      var keyed := s.now.(byKey := Keyed(s.now.byKey, key, mint));
      if body.Unusable? then (s.(now := keyed), Broken)
      else
        var put := s.(now := keyed.(mail := s.now.mail[mint := body.value]));
        if JournalRaises(o, body.value, disk) then (put, Broken)
        else Saved(o, if o.journals then put.(journal := s.journal + [Line(mint, key)]) else put, disk, Answer(200, Some(mint)))
  }

  ghost function Answered(o: Options, s: State, r: Request, mint: Id, disk: Disk): (State, Answer) {
    match r
    case GetDomain(id) => (s, if id in s.now.domains then ShowsDomain(id, s.now.domains[id]) else Answer(404, None))
    case GetMail(id) => (s, if id in s.now.mail then ShowsMail(id, s.now.mail[id]) else Answer(404, None))
    case CreateDomain(name) => Created(o, s, name, mint, disk)
    case Verify(id) => Verified(o, s, id, disk)
    case Deposit(mail) => Deposited(o, s, mail, mint, disk)
    case Send(key, body) => Sent(o, s, key, body, mint, disk)
  }

  // A process that starts reads the file, if it has one and it is there; one
  // that cannot be read keeps it from starting.
  function Restarted(o: Options, s: State): State {
    if o.keeps && s.file.Garbled? then s.(up := false, now := NOTHING)
    else s.(up := true, now := if o.keeps && s.file.Holds? then s.file.snapshot else NOTHING)
  }

  datatype Event = Ask(authorized: bool, request: Request, mint: Id, disk: Disk) | Restart

  ghost function Step(o: Options, s: State, e: Event): (State, Answer) {
    match e
    case Restart => (Restarted(o, s), Broken)
    case Ask(authorized, request, mint, disk) =>
      if !s.up then (s, Broken)
      else if !authorized then (s, Answer(401, None))
      else Answered(o, s, request, mint, disk)
  }

  // The identifier minted for a request is one nothing holds.
  predicate Unused(s: State, id: Id) {
    && id !in s.now.domains && id !in s.now.mail
    && forall key :: key in s.now.byKey ==> s.now.byKey[key] != id
  }

  predicate Minted(s: State, e: Event) {
    e.Ask? ==> Unused(s, e.mint)
  }

  ghost function After(o: Options, s: State, events: seq<Event>): State
    decreases |events|
  {
    if events == [] then s else After(o, Step(o, s, events[0]).0, events[1..])
  }

  ghost predicate AllMinted(o: Options, s: State, events: seq<Event>)
    decreases |events|
  {
    events == [] || (Minted(s, events[0]) && AllMinted(o, Step(o, s, events[0]).0, events[1..]))
  }

  // ------------------------------------------------------------------
  // What every state keeps
  // ------------------------------------------------------------------

  ghost predicate NamesDistinct(domains: map<Id, Domain>) {
    forall a, b :: a in domains && b in domains && domains[a].name == domains[b].name ==> a == b
  }

  // What the file holds that a start can read.
  function Kept(s: State): Snapshot {
    if s.file.Holds? then s.file.snapshot else NOTHING
  }

  predicate Grows(d: Domain, domains: map<Id, Domain>, id: Id) {
    id in domains && domains[id].name == d.name && (d.verified ==> domains[id].verified)
  }

  // The file holds nothing the process does not.
  ghost predicate Behind(kept: Snapshot, now: Snapshot) {
    && (forall id :: id in kept.domains ==> Grows(kept.domains[id], now.domains, id))
    && (forall id :: id in kept.mail ==> id in now.mail && now.mail[id] == kept.mail[id])
    && (forall key :: key in kept.byKey ==> key in now.byKey && now.byKey[key] == kept.byKey[key])
  }

  ghost predicate Inv(o: Options, s: State) {
    && NamesDistinct(s.now.domains) && NamesDistinct(Kept(s).domains)
    && "" !in s.now.byKey && "" !in Kept(s).byKey
    && (o.keeps ==> Behind(Kept(s), s.now))
    && (!s.up ==> s.file.Garbled? && o.keeps)
  }

  lemma BehindItself(now: Snapshot)
    ensures Behind(now, now) && Behind(NOTHING, now)
  {
  }

  lemma SavedKeeps(o: Options, s: State, disk: Disk, answer: Answer)
    requires NamesDistinct(s.now.domains) && "" !in s.now.byKey
    requires NamesDistinct(Kept(s).domains) && "" !in Kept(s).byKey && s.up
    requires o.keeps ==> Behind(Kept(s), s.now)
    ensures Inv(o, Saved(o, s, disk, answer).0)
  {
    hide NamesDistinct, Behind;
    BehindItself(s.now);
    NoNames();
  }

  lemma NoNames()
    ensures NamesDistinct(NOTHING.domains)
  {
  }

  lemma CreatedKeeps(o: Options, s: State, name: Body<Text>, mint: Id, disk: Disk)
    requires Inv(o, s) && s.up && Unused(s, mint)
    ensures Inv(o, Created(o, s, name, mint, disk).0)
  {
    hide Saved;
    if name.Usable? && !HasName(s.now.domains, name.value) {
      var added := s.(now := s.now.(domains := s.now.domains[mint := Domain(name.value, false)]));
      assert forall id :: id in s.now.domains ==> !Named(s.now.domains, id, name.value);
      SavedKeeps(o, added, disk, Answer(201, Some(mint)));
    }
  }

  lemma VerifiedKeeps(o: Options, s: State, id: Id, disk: Disk)
    requires Inv(o, s) && s.up
    ensures Inv(o, Verified(o, s, id, disk).0)
  {
    hide Saved;
    if id in s.now.domains {
      SavedKeeps(o, s.(now := s.now.(domains := s.now.domains[id := s.now.domains[id].(verified := true)])), disk, Answer(200, Some(id)));
    }
  }

  lemma DepositedKeeps(o: Options, s: State, mail: Body<Mail>, mint: Id, disk: Disk)
    requires Inv(o, s) && s.up && Unused(s, mint)
    ensures Inv(o, Deposited(o, s, mail, mint, disk).0)
  {
    hide Saved, NamesDistinct;
    if mail.Usable? {
      SavedKeeps(o, s.(now := s.now.(mail := s.now.mail[mint := Received(mail.value)])), disk, Answer(200, Some(mint)));
    }
  }

  lemma SentKeeps(o: Options, s: State, key: string, body: Body<Mail>, mint: Id, disk: Disk)
    requires Inv(o, s) && s.up && Unused(s, mint)
    ensures Inv(o, Sent(o, s, key, body, mint, disk).0)
  {
    hide Saved, NamesDistinct, JournalRaises;
    if !body.NotJson? && (key == "" || key !in s.now.byKey) {
      var keyed := s.now.(byKey := Keyed(s.now.byKey, key, mint));
      assert o.keeps ==> Behind(Kept(s), keyed);
      if body.Usable? {
        var put := s.(now := keyed.(mail := s.now.mail[mint := body.value]));
        assert o.keeps ==> Behind(Kept(s), put.now);
        SavedKeeps(o, if o.journals then put.(journal := s.journal + [Line(mint, key)]) else put, disk, Answer(200, Some(mint)));
      }
    }
  }

  lemma RestartKeeps(o: Options, s: State)
    requires Inv(o, s)
    ensures Inv(o, Restarted(o, s))
  {
    hide NamesDistinct, Behind;
    NoNames();
    BehindItself(Restarted(o, s).now);
  }

  lemma StepKeeps(o: Options, s: State, e: Event)
    requires Inv(o, s) && Minted(s, e)
    ensures Inv(o, Step(o, s, e).0)
  {
    hide Inv, Saved, Created, Verified, Deposited, Sent, Restarted, Unused;
    match e {
      case Restart => RestartKeeps(o, s);
      case Ask(authorized, r, mint, disk) =>
        if s.up && authorized {
          match r {
            case CreateDomain(name) => CreatedKeeps(o, s, name, mint, disk);
            case Verify(id) => VerifiedKeeps(o, s, id, disk);
            case Deposit(mail) => DepositedKeeps(o, s, mail, mint, disk);
            case Send(key, body) => SentKeeps(o, s, key, body, mint, disk);
            case GetDomain(_) =>
            case GetMail(_) =>
          }
        }
    }
  }

  // Domain names stay distinct in every run, whatever breaks and restarts.
  lemma {:induction false} RunKeeps(o: Options, s: State, events: seq<Event>)
    requires Inv(o, s) && AllMinted(o, s, events)
    ensures Inv(o, After(o, s, events)) && NamesDistinct(After(o, s, events).now.domains)
    decreases |events|
  {
    hide Step, Minted, NamesDistinct, Behind;
    if events != [] {
      StepKeeps(o, s, events[0]);
      RunKeeps(o, Step(o, s, events[0]).0, events[1..]);
    }
  }

  // ------------------------------------------------------------------
  // What lasts
  // ------------------------------------------------------------------

  // A key whose send went through.
  predicate Served(now: Snapshot, key: string) {
    key in now.byKey && now.byKey[key] in now.mail
  }

  // A served key keeps its identifier and its mail, a piece of mail stays
  // readable as it was, and a domain keeps its name and its verification.
  ghost predicate Lasts(before: Snapshot, after: Snapshot) {
    && (forall key :: Served(before, key) ==> Served(after, key) && after.byKey[key] == before.byKey[key])
    && (forall id :: id in before.mail ==> id in after.mail && after.mail[id] == before.mail[id])
    && (forall id :: id in before.domains ==> Grows(before.domains[id], after.domains, id))
  }

  lemma NowLasts(now: Snapshot)
    ensures Lasts(now, now)
  {
  }

  lemma LastsThrough(a: Snapshot, b: Snapshot, c: Snapshot)
    requires Lasts(a, b) && Lasts(b, c)
    ensures Lasts(a, c)
  {
  }

  // A restart at this moment would lose nothing.
  ghost predicate Lossless(o: Options, s: State) {
    o.keeps ==> !s.file.Garbled? && Lasts(s.now, Kept(s))
  }

  lemma SavedNow(o: Options, s: State, disk: Disk, answer: Answer)
    ensures Saved(o, s, disk, answer).0.now == s.now && Saved(o, s, disk, answer).0.journal == s.journal
    ensures Saved(o, s, disk, answer).0.up == s.up
    ensures !StateRaises(o, disk) ==> Saved(o, s, disk, answer).1 == answer && Lossless(o, Saved(o, s, disk, answer).0)
    ensures StateRaises(o, disk) ==> Saved(o, s, disk, answer).1 == Broken
    ensures StateRaises(o, disk) ==> (Lossless(o, Saved(o, s, disk, answer).0) <==> disk.state.Refused? && Lossless(o, s))
  {
    hide Lasts;
    NowLasts(s.now);
  }

  lemma CreatedLasts(o: Options, s: State, name: Body<Text>, mint: Id, disk: Disk)
    requires Unused(s, mint)
    ensures Lasts(s.now, Created(o, s, name, mint, disk).0.now)
  {
    NowLasts(s.now);
    hide Saved;
    if name.Usable? && !HasName(s.now.domains, name.value) {
      SavedNow(o, s.(now := s.now.(domains := s.now.domains[mint := Domain(name.value, false)])), disk, Answer(201, Some(mint)));
    }
  }

  lemma VerifiedLasts(o: Options, s: State, id: Id, disk: Disk)
    ensures Lasts(s.now, Verified(o, s, id, disk).0.now)
  {
    NowLasts(s.now);
    hide Saved;
    if id in s.now.domains {
      SavedNow(o, s.(now := s.now.(domains := s.now.domains[id := s.now.domains[id].(verified := true)])), disk, Answer(200, Some(id)));
    }
  }

  lemma DepositedLasts(o: Options, s: State, mail: Body<Mail>, mint: Id, disk: Disk)
    requires Unused(s, mint)
    ensures Lasts(s.now, Deposited(o, s, mail, mint, disk).0.now)
  {
    NowLasts(s.now);
    hide Saved;
    if mail.Usable? {
      SavedNow(o, s.(now := s.now.(mail := s.now.mail[mint := Received(mail.value)])), disk, Answer(200, Some(mint)));
    }
  }

  lemma SentLasts(o: Options, s: State, key: string, body: Body<Mail>, mint: Id, disk: Disk)
    requires Unused(s, mint)
    ensures Lasts(s.now, Sent(o, s, key, body, mint, disk).0.now)
  {
    NowLasts(s.now);
    hide Saved, JournalRaises;
    if body.Usable? && (key == "" || key !in s.now.byKey) {
      var put := s.(now := s.now.(byKey := Keyed(s.now.byKey, key, mint), mail := s.now.mail[mint := body.value]));
      SavedNow(o, if o.journals then put.(journal := s.journal + [Line(mint, key)]) else put, disk, Answer(200, Some(mint)));
    }
  }

  lemma StepLasts(o: Options, s: State, e: Event)
    requires Minted(s, e) && (e.Restart? ==> o.keeps && Lossless(o, s))
    ensures Lasts(s.now, Step(o, s, e).0.now)
  {
    hide Lasts, Unused, Created, Verified, Sent, Deposited;
    NowLasts(s.now);
    match e {
      case Restart =>
      case Ask(authorized, r, mint, disk) =>
        if s.up && authorized {
          match r {
            case CreateDomain(name) => CreatedLasts(o, s, name, mint, disk);
            case Verify(id) => VerifiedLasts(o, s, id, disk);
            case Deposit(mail) => DepositedLasts(o, s, mail, mint, disk);
            case Send(key, body) => SentLasts(o, s, key, body, mint, disk);
            case GetDomain(_) =>
            case GetMail(_) =>
          }
        }
    }
  }

  // ------------------------------------------------------------------
  // The journal
  // ------------------------------------------------------------------

  // The identifiers journalled under a key.
  function LinesOf(journal: seq<Line>, key: string): seq<Id> {
    if journal == [] then []
    else LinesOf(journal[..|journal| - 1], key) + if journal[|journal| - 1].key == key then [journal[|journal| - 1].id] else []
  }

  lemma OneMoreLine(journal: seq<Line>, line: Line, key: string)
    ensures LinesOf(journal + [line], key) == LinesOf(journal, key) + if line.key == key then [line.id] else []
  {
    assert (journal + [line])[..|journal|] == journal;
  }

  function LinesFor(now: Snapshot, key: string): seq<Id> {
    if Served(now, key) then [now.byKey[key]] else []
  }

  // One line for each served key, under its identifier, and none for another.
  ghost predicate JournalExact(s: State) {
    forall key :: key != "" ==> LinesOf(s.journal, key) == LinesFor(s.now, key)
  }

  // The process is up, its journal exact if it writes one, and a restart at
  // this moment would lose nothing.
  ghost predicate Sound(o: Options, s: State) {
    s.up && (o.journals ==> JournalExact(s)) && Lossless(o, s)
  }

  // The send is a first one: without a key, or with one nothing holds.
  predicate First(s: State, key: string) {
    key == "" || key !in s.now.byKey
  }

  // A write of the request raises: the journal's or the state's, of what is new.
  predicate Spoils(o: Options, s: State, r: Request, disk: Disk) {
    match r
    case GetDomain(_) => false
    case GetMail(_) => false
    case CreateDomain(name) => name.Usable? && !HasName(s.now.domains, name.value) && StateRaises(o, disk)
    case Verify(id) => id in s.now.domains && StateRaises(o, disk) && (disk.state.CutOff? || !s.now.domains[id].verified)
    case Deposit(mail) => mail.Usable? && StateRaises(o, disk)
    case Send(key, body) => body.Usable? && First(s, key) && (JournalRaises(o, body.value, disk) || StateRaises(o, disk))
  }

  // Nothing new in a snapshot is missing from the file that lags it.
  lemma NewMailIsNotKept(o: Options, s: State, t: State, mint: Id)
    requires Inv(o, s) && Unused(s, mint) && t.file == s.file
    requires mint in t.now.mail || (mint in t.now.domains && mint !in s.now.domains)
    ensures Lossless(o, t) <==> !o.keeps
  {
    hide NamesDistinct;
  }

  lemma CreatedSound(o: Options, s: State, name: Body<Text>, mint: Id, disk: Disk)
    requires Inv(o, s) && Unused(s, mint) && Sound(o, s)
    ensures var after := Created(o, s, name, mint, disk).0;
      after.up && after.journal == s.journal && after.now.byKey == s.now.byKey && after.now.mail == s.now.mail
      && (Lossless(o, after) <==> !Spoils(o, s, CreateDomain(name), disk))
  {
    hide Saved, Inv, Lossless, JournalExact;
    if name.Usable? && !HasName(s.now.domains, name.value) {
      var added := s.(now := s.now.(domains := s.now.domains[mint := Domain(name.value, false)]));
      SavedNow(o, added, disk, Answer(201, Some(mint)));
      NewMailIsNotKept(o, s, added, mint);
    }
  }

  lemma VerifiedSound(o: Options, s: State, id: Id, disk: Disk)
    requires Inv(o, s) && Sound(o, s)
    ensures var after := Verified(o, s, id, disk).0;
      after.up && after.journal == s.journal && after.now.byKey == s.now.byKey && after.now.mail == s.now.mail
      && (Lossless(o, after) <==> !Spoils(o, s, Verify(id), disk))
  {
    hide Saved, JournalExact, NamesDistinct;
    if id in s.now.domains {
      var d := s.now.domains[id];
      var verified := s.(now := s.now.(domains := s.now.domains[id := d.(verified := true)]));
      SavedNow(o, verified, disk, Answer(200, Some(id)));
      if d.verified {
        assert verified.now.domains == s.now.domains;
      } else {
        assert o.keeps ==> !Grows(verified.now.domains[id], Kept(s).domains, id);
      }
    }
  }

  lemma DepositedSound(o: Options, s: State, mail: Body<Mail>, mint: Id, disk: Disk)
    requires Inv(o, s) && Unused(s, mint) && Sound(o, s)
    ensures var after := Deposited(o, s, mail, mint, disk).0;
      after.up && after.journal == s.journal && after.now.byKey == s.now.byKey
      && (forall key :: Served(after.now, key) <==> Served(s.now, key))
      && (Lossless(o, after) <==> !Spoils(o, s, Deposit(mail), disk))
  {
    hide Saved, Inv, Lossless, JournalExact;
    if mail.Usable? {
      var put := s.(now := s.now.(mail := s.now.mail[mint := Received(mail.value)]));
      SavedNow(o, put, disk, Answer(200, Some(mint)));
      NewMailIsNotKept(o, s, put, mint);
    }
  }

  lemma SameLines(before: State, after: State)
    requires after.journal == before.journal && JournalExact(before)
    requires forall key :: LinesFor(after.now, key) == LinesFor(before.now, key)
    ensures JournalExact(after)
  {
  }

  // A first send puts its key and its mail; the line decides the journal.
  lemma SentLines(s: State, put: State, key: string, mint: Id)
    requires JournalExact(s) && Unused(s, mint) && First(s, key) && "" !in s.now.byKey
    requires put.now.byKey == Keyed(s.now.byKey, key, mint) && put.now.mail.Keys == s.now.mail.Keys + {mint}
    ensures put.journal == s.journal ==> (JournalExact(put) <==> key == "")
    ensures put.journal == s.journal + [Line(mint, key)] ==> JournalExact(put)
  {
    hide LinesOf;
    forall k | k != ""
      ensures LinesFor(put.now, k) == if k == key then [mint] else LinesFor(s.now, k)
    {
    }
    if put.journal == s.journal + [Line(mint, key)] {
      forall k | k != ""
        ensures LinesOf(put.journal, k) == LinesFor(put.now, k)
      {
        OneMoreLine(s.journal, Line(mint, key), k);
      }
    }
    if put.journal == s.journal && key != "" {
      assert LinesOf(s.journal, key) == LinesFor(s.now, key) == [];
    }
  }

  lemma SentSound(o: Options, s: State, key: string, body: Body<Mail>, mint: Id, disk: Disk)
    requires Inv(o, s) && Unused(s, mint) && Sound(o, s)
    ensures !Spoils(o, s, Send(key, body), disk) ==> Sound(o, Sent(o, s, key, body, mint, disk).0)
    ensures o.keeps && Spoils(o, s, Send(key, body), disk) ==> !Sound(o, Sent(o, s, key, body, mint, disk).0)
  {
    hide Saved, Lossless, JournalExact, JournalRaises, NamesDistinct, Lasts, Behind;
    if !body.NotJson? && First(s, key) {
      if body.Unusable? {
        BrokenKeyLosesNothing(o, s, key, mint);
      } else {
        var put := s.(now := s.now.(byKey := Keyed(s.now.byKey, key, mint), mail := s.now.mail[mint := body.value]));
        var journalled := if o.journals then put.(journal := s.journal + [Line(mint, key)]) else put;
        NewMailIsNotKept(o, s, put, mint);
        NewMailIsNotKept(o, s, journalled, mint);
        SavedNow(o, journalled, disk, Answer(200, Some(mint)));
        if o.journals {
          SentLines(s, journalled, key, mint);
          SameNowSameLines(journalled, Saved(o, journalled, disk, Answer(200, Some(mint))).0);
        }
      }
    }
  }

  lemma SameNowSameLines(before: State, after: State)
    requires before.now == after.now && before.journal == after.journal
    ensures JournalExact(before) <==> JournalExact(after)
  {
  }

  // A key taken by a send that broke on its body is neither served nor kept,
  // and neither the journal nor a restart misses it.
  lemma BrokenKeyLosesNothing(o: Options, s: State, key: string, mint: Id)
    requires Inv(o, s) && Unused(s, mint) && First(s, key) && Sound(o, s)
    ensures var broken := s.(now := s.now.(byKey := Keyed(s.now.byKey, key, mint)));
      (o.journals ==> JournalExact(broken)) && Lossless(o, broken)
  {
    hide LinesOf, NamesDistinct;
    var broken := s.(now := s.now.(byKey := Keyed(s.now.byKey, key, mint)));
    assert forall k :: Served(broken.now, k) <==> Served(s.now, k);
    assert forall k :: LinesFor(broken.now, k) == LinesFor(s.now, k);
  }

  lemma RestartSound(o: Options, s: State)
    requires Inv(o, s) && o.keeps && Sound(o, s)
    ensures Sound(o, Restarted(o, s))
  {
    hide LinesOf, NamesDistinct;
    var after := Restarted(o, s);
    assert after.now == Kept(s);
    NowLasts(after.now);
    assert forall k :: Served(after.now, k) <==> Served(s.now, k);
    assert forall k :: LinesFor(after.now, k) == LinesFor(s.now, k);
  }

  predicate SpoilsIt(o: Options, s: State, e: Event) {
    e.Ask? && e.authorized && Spoils(o, s, e.request, e.disk)
  }

  // From a sound state a step leads to a sound one if no write of it raises,
  // and with a state file only then.
  lemma StepSound(o: Options, s: State, e: Event)
    requires Inv(o, s) && Minted(s, e) && Sound(o, s) && (e.Restart? ==> o.keeps)
    ensures !SpoilsIt(o, s, e) ==> Sound(o, Step(o, s, e).0)
    ensures o.keeps && SpoilsIt(o, s, e) ==> !Sound(o, Step(o, s, e).0)
  {
    hide Inv, Unused, Created, Verified, Deposited, Sent, Restarted, Spoils, JournalExact, Lossless, LinesFor;
    match e {
      case Restart => RestartSound(o, s);
      case Ask(authorized, r, mint, disk) =>
        if authorized {
          AnsweredSound(o, s, r, mint, disk);
        }
    }
  }

  lemma AnsweredSound(o: Options, s: State, r: Request, mint: Id, disk: Disk)
    requires Inv(o, s) && Unused(s, mint) && Sound(o, s)
    ensures !Spoils(o, s, r, disk) ==> Sound(o, Answered(o, s, r, mint, disk).0)
    ensures o.keeps && Spoils(o, s, r, disk) ==> !Sound(o, Answered(o, s, r, mint, disk).0)
  {
    hide Inv, Unused, Created, Verified, Deposited, Sent, JournalExact, Lossless;
    var after := Answered(o, s, r, mint, disk).0;
    match r {
      case CreateDomain(name) => CreatedSound(o, s, name, mint, disk);
      case Verify(id) => VerifiedSound(o, s, id, disk);
      case Deposit(mail) => DepositedSound(o, s, mail, mint, disk);
      case Send(key, body) => SentSound(o, s, key, body, mint, disk);
      case GetDomain(_) =>
      case GetMail(_) =>
    }
    if !r.Send? && o.journals {
      SameLines(s, after);
    }
  }

  // ------------------------------------------------------------------
  // Over every run
  // ------------------------------------------------------------------

  // No write raises in the run.
  ghost predicate NoneSpoils(o: Options, s: State, events: seq<Event>)
    decreases |events|
  {
    events == [] || (!SpoilsIt(o, s, events[0]) && NoneSpoils(o, Step(o, s, events[0]).0, events[1..]))
  }

  // Sound at the start of the run and after each event of it.
  ghost predicate SoundThroughout(o: Options, s: State, events: seq<Event>)
    decreases |events|
  {
    Sound(o, s) && (events == [] || SoundThroughout(o, Step(o, s, events[0]).0, events[1..]))
  }

  ghost predicate NeverRestarts(events: seq<Event>) {
    forall e :: e in events ==> !e.Restart?
  }

  // With a state file, in any run: the journal is exact at every point, and a
  // restart at any point would lose nothing, exactly when no write raises.
  lemma {:induction false} SoundIffNoWriteRaises(o: Options, s: State, events: seq<Event>)
    requires Inv(o, s) && AllMinted(o, s, events) && o.keeps && Sound(o, s)
    ensures SoundThroughout(o, s, events) <==> NoneSpoils(o, s, events)
    decreases |events|
  {
    hide Step, Minted, Inv, Sound, SpoilsIt;
    if events != [] {
      StepKeeps(o, s, events[0]);
      StepSound(o, s, events[0]);
      var next := Step(o, s, events[0]).0;
      if !SpoilsIt(o, s, events[0]) {
        SoundIffNoWriteRaises(o, next, events[1..]);
      } else {
        StartsSound(o, next, events[1..]);
      }
    }
  }

  // Restarted only with a state file, no write that raises is enough.
  lemma {:induction false} SoundIfNoWriteRaises(o: Options, s: State, events: seq<Event>)
    requires Inv(o, s) && AllMinted(o, s, events) && Sound(o, s) && NoneSpoils(o, s, events)
    requires o.keeps || NeverRestarts(events)
    ensures SoundThroughout(o, s, events)
    decreases |events|
  {
    hide Step, Minted, Inv, Sound, SpoilsIt;
    if events != [] {
      assert events[0] in events;
      StepKeeps(o, s, events[0]);
      StepSound(o, s, events[0]);
      assert forall e :: e in events[1..] ==> e in events;
      SoundIfNoWriteRaises(o, Step(o, s, events[0]).0, events[1..]);
    }
  }

  lemma StartsSound(o: Options, s: State, events: seq<Event>)
    ensures SoundThroughout(o, s, events) ==> Sound(o, s)
  {
  }

  lemma {:induction false} EndsSound(o: Options, s: State, events: seq<Event>)
    requires SoundThroughout(o, s, events)
    ensures Sound(o, After(o, s, events))
    decreases |events|
  {
    hide Step, Sound;
    if events != [] {
      EndsSound(o, Step(o, s, events[0]).0, events[1..]);
    }
  }

  // Never restarted, whatever its writes do, or with a state file and no write
  // that raises, however often it is: the provider forgets nothing.
  lemma {:induction false} RunLasts(o: Options, s: State, events: seq<Event>)
    requires Inv(o, s) && AllMinted(o, s, events)
    requires NeverRestarts(events) || (o.keeps && SoundThroughout(o, s, events))
    ensures Lasts(s.now, After(o, s, events).now)
    decreases |events|
  {
    hide Step, Minted, Inv, Lasts;
    NowLasts(s.now);
    if events != [] {
      var next := Step(o, s, events[0]).0;
      assert events[0] in events;
      StepKeeps(o, s, events[0]);
      StepLasts(o, s, events[0]);
      assert forall e :: e in events[1..] ==> e in events;
      RunLasts(o, next, events[1..]);
      LastsThrough(s.now, next.now, After(o, next, events[1..]).now);
    }
  }

  // A served key answers its one identifier to any JSON body, is journalled no
  // more, and that identifier is readable.
  lemma ServedAnswers(o: Options, s: State, key: string, body: Body<Mail>, mint: Id, disk: Disk)
    requires Inv(o, s) && Served(s.now, key)
    ensures Answered(o, s, Send(key, body), mint, disk) == (s, if body.NotJson? then Broken else Answer(200, Some(s.now.byKey[key])))
    ensures var id := s.now.byKey[key];
      Answered(o, s, GetMail(id), mint, disk) == (s, ShowsMail(id, s.now.mail[id]))
  {
  }

  predicate Keyless(e: Event) {
    e.Ask? && e.authorized && e.request.Send? && e.request.key == "" && e.request.body.Usable?
  }

  function KeylessSends(events: seq<Event>): nat {
    if events == [] then 0 else (if Keyless(events[0]) then 1 else 0) + KeylessSends(events[1..])
  }

  ghost function ServedKeys(now: Snapshot): set<string> {
    set key | key in now.byKey && now.byKey[key] in now.mail
  }

  lemma SentCounts(o: Options, s: State, key: string, body: Body<Mail>, mint: Id, disk: Disk)
    requires Inv(o, s) && Unused(s, mint) && o.journals && !Spoils(o, s, Send(key, body), disk)
    ensures var after := Sent(o, s, key, body, mint, disk).0;
      |after.journal| - |ServedKeys(after.now)| == |s.journal| - |ServedKeys(s.now)| + if key == "" && body.Usable? then 1 else 0
  {
    hide NamesDistinct, Behind, JournalRaises, Saved;
    var after := Sent(o, s, key, body, mint, disk).0;
    if body.Usable? && First(s, key) {
      var put := s.(now := s.now.(byKey := Keyed(s.now.byKey, key, mint), mail := s.now.mail[mint := body.value]));
      SavedNow(o, put.(journal := s.journal + [Line(mint, key)]), disk, Answer(200, Some(mint)));
      assert ServedKeys(after.now) == if key == "" then ServedKeys(s.now) else ServedKeys(s.now) + {key};
    } else {
      assert ServedKeys(after.now) == ServedKeys(s.now);
    }
  }

  lemma OthersCount(o: Options, s: State, r: Request, mint: Id, disk: Disk)
    requires !r.Send? && Unused(s, mint)
    ensures var after := Answered(o, s, r, mint, disk).0;
      after.journal == s.journal && ServedKeys(after.now) == ServedKeys(s.now)
  {
  }

  lemma StepCounts(o: Options, s: State, e: Event)
    requires Inv(o, s) && Minted(s, e) && o.journals && Sound(o, s) && !SpoilsIt(o, s, e) && (e.Restart? ==> o.keeps)
    ensures var after := Step(o, s, e).0;
      |after.journal| - |ServedKeys(after.now)| == |s.journal| - |ServedKeys(s.now)| + if Keyless(e) then 1 else 0
  {
    match e {
      case Restart =>
        hide NamesDistinct, JournalExact;
        assert ServedKeys(Kept(s)) == ServedKeys(s.now);
      case Ask(authorized, r, mint, disk) =>
        hide Inv, Sent, Created, Verified, Deposited, Unused, ServedKeys, JournalExact, Lossless, Spoils;
        if authorized {
          if r.Send? {
            SentCounts(o, s, r.key, r.body, mint, disk);
          } else {
            OthersCount(o, s, r, mint, disk);
          }
        }
    }
  }

  lemma {:induction false} RunCounts(o: Options, s: State, events: seq<Event>)
    requires Inv(o, s) && AllMinted(o, s, events) && o.journals && Sound(o, s) && NoneSpoils(o, s, events)
    requires o.keeps || NeverRestarts(events)
    ensures var after := After(o, s, events);
      |after.journal| - |ServedKeys(after.now)| == |s.journal| - |ServedKeys(s.now)| + KeylessSends(events)
    decreases |events|
  {
    hide Step, Minted, Inv, ServedKeys, Keyless, Sound, SpoilsIt;
    if events != [] {
      assert events[0] in events;
      StepKeeps(o, s, events[0]);
      StepSound(o, s, events[0]);
      StepCounts(o, s, events[0]);
      assert forall e :: e in events[1..] ==> e in events;
      RunCounts(o, Step(o, s, events[0]).0, events[1..]);
    }
  }

  lemma BlankIsGood(o: Options)
    ensures Inv(o, BLANK) && Sound(o, BLANK) && ServedKeys(BLANK.now) == {}
  {
  }

  // From its first start, through any requests and bodies, and any restarts if
  // it keeps its state, as long as no write raises: the journal has a line for
  // each send without a key and one for each key served, under the identifier
  // it answers.
  lemma JournalOfARun(o: Options, events: seq<Event>)
    requires AllMinted(o, BLANK, events) && o.journals && NoneSpoils(o, BLANK, events)
    requires o.keeps || NeverRestarts(events)
    ensures var after := After(o, BLANK, events);
      |after.journal| == KeylessSends(events) + |ServedKeys(after.now)| && JournalExact(after)
  {
    hide After, AllMinted, NoneSpoils, SoundThroughout, JournalExact, Lossless, NeverRestarts;
    BlankIsGood(o);
    SoundIfNoWriteRaises(o, BLANK, events);
    RunCounts(o, BLANK, events);
    EndsSound(o, BLANK, events);
  }

  // ------------------------------------------------------------------
  // What a request leaves behind
  // ------------------------------------------------------------------

  predicate Within(m: Mail, c: nat) {
    || c in m.sender || c in m.subject || c in m.text
    || (exists i :: 0 <= i < |m.recipients| && c in m.recipients[i])
    || (exists i :: 0 <= i < |m.headers| && (c in m.headers[i].0 || c in m.headers[i].1))
  }

  // Mail is journalled unless a lone surrogate is anywhere in it.
  lemma EncodesMeans(m: Mail)
    ensures MailEncodes(m) <==> forall c: nat :: Within(m, c) ==> c < 55296 || c > 57343
  {
    if MailEncodes(m) {
      forall c: nat | Within(m, c)
        ensures c < 55296 || c > 57343
      {
        assert forall i :: 0 <= i < |m.recipients| ==> Encodes(m.recipients[i]);
        assert forall i :: 0 <= i < |m.headers| ==> Encodes(m.headers[i].0) && Encodes(m.headers[i].1);
      }
    }
    if forall c: nat :: Within(m, c) ==> c < 55296 || c > 57343 {
      forall t: Text | t in [m.sender, m.subject, m.text]
        ensures Encodes(t)
      {
        assert forall c :: c in t ==> Within(m, c);
      }
      forall r | r in m.recipients
        ensures Encodes(r)
      {
        assert forall c :: c in r ==> Within(m, c);
      }
      forall h | h in m.headers
        ensures Encodes(h.0) && Encodes(h.1)
      {
        assert forall c :: c in h.0 || c in h.1 ==> Within(m, c);
      }
      assert m.sender in [m.sender, m.subject, m.text] && m.subject in [m.sender, m.subject, m.text] && m.text in [m.sender, m.subject, m.text];
    }
  }

  // Nobody without a token is told or changes anything, a process that is down
  // answers nobody, and a start has what a readable file holds and no more.
  lemma AtTheDoor(o: Options, s: State, r: Request, mint: Id, disk: Disk)
    ensures s.up ==> Step(o, s, Ask(false, r, mint, disk)) == (s, Answer(401, None))
    ensures !s.up ==> forall authorized :: Step(o, s, Ask(authorized, r, mint, disk)) == (s, Broken)
    ensures var started := Step(o, s, Restart).0;
      && started.journal == s.journal && started.file == s.file
      && (started.up <==> !(o.keeps && s.file == Garbled))
      && (forall kept :: o.keeps && s.file == Holds(kept) ==> started.now == kept)
      && (!o.keeps || !s.file.Holds? ==> started.now == Snapshot(map[], map[], map[]))
  {
  }

  // The state file after a request that got as far as keeping the state.
  predicate FileIs(o: Options, s: State, t: State, disk: Disk, reached: bool) {
    t.file == if !reached || !o.keeps || disk.state.Refused? then s.file
              else if disk.state.Through? then Holds(t.now)
              else Garbled
  }

  // Every entry of one map is in the other as it was, and at most one is new.
  ghost predicate OneMore<K(!new), V>(before: map<K, V>, after: map<K, V>, added: Option<(K, V)>) {
    && (forall k :: k in after <==> k in before || (added.Some? && k == added.value.0))
    && (forall k :: k in before && (added.Some? ==> k != added.value.0) ==> k in after && after[k] == before[k])
    && (added.Some? ==> added.value.0 in after && after[added.value.0] == added.value.1)
  }

  // A send changes a key, one piece of mail, a line and the file, each of them
  // when it gets that far and to nothing but its own.
  lemma SendMeans(o: Options, s: State, key: string, body: Body<Mail>, mint: Id, disk: Disk)
    ensures var (t, answer) := Sent(o, s, key, body, mint, disk);
      var held := key != "" && key in s.now.byKey;
      var first := !body.NotJson? && !held;
      var put := first && body.Usable?;
      var written := put && (o.journals ==> disk.journal && MailEncodes(body.value));
      && t.up == s.up && t.now.domains == s.now.domains
      && OneMore(s.now.byKey, t.now.byKey, if first && key != "" then Some((key, mint)) else None)
      && OneMore(s.now.mail, t.now.mail, if put then Some((mint, body.value)) else None)
      && t.journal == s.journal + (if written && o.journals then [Line(mint, key)] else [])
      && FileIs(o, s, t, disk, written)
      && answer == (if held && !body.NotJson? then Answer(200, Some(s.now.byKey[key]))
                    else if written && (o.keeps ==> disk.state.Through?) then Answer(200, Some(mint))
                    else Broken)
  {
  }

  lemma DepositMeans(o: Options, s: State, body: Body<Mail>, mint: Id, disk: Disk)
    ensures var (t, answer) := Deposited(o, s, body, mint, disk);
      && t.up == s.up && t.now.domains == s.now.domains && t.now.byKey == s.now.byKey && t.journal == s.journal
      && (body.Usable? ==>
            var m := body.value;
            OneMore(s.now.mail, t.now.mail, Some((mint, Mail(m.sender, m.recipients, m.subject, m.text, [(FROM, m.sender)])))))
      && (!body.Usable? ==> t.now.mail == s.now.mail)
      && FileIs(o, s, t, disk, body.Usable?)
      && answer == (if body.Usable? && (o.keeps ==> disk.state.Through?) then Answer(200, Some(mint)) else Broken)
  {
  }

  predicate Tells(answer: Answer, domains: map<Id, Domain>, name: Text) {
    answer.Answer? && answer.code == 200 && answer.about.Some? && answer.about.value in domains && domains[answer.about.value].name == name
  }

  // A name there already is answered as it stands; a new one waits to be
  // verified.
  lemma CreateMeans(o: Options, s: State, name: Body<Text>, mint: Id, disk: Disk)
    requires mint !in s.now.domains
    ensures var (t, answer) := Created(o, s, name, mint, disk);
      var known := name.Usable? && exists id :: id in s.now.domains && s.now.domains[id].name == name.value;
      var made := name.Usable? && !known;
      && t.up == s.up && t.now.mail == s.now.mail && t.now.byKey == s.now.byKey && t.journal == s.journal
      && OneMore(s.now.domains, t.now.domains, if made then Some((mint, Domain(name.value, false))) else None)
      && FileIs(o, s, t, disk, made)
      && (known ==> Tells(answer, s.now.domains, name.value))
      && (!known ==> answer == if made && (o.keeps ==> disk.state.Through?) then Answer(201, Some(mint)) else Broken)
  {
    hide Saved;
    if name.Usable? {
      assert forall id :: id in s.now.domains ==> (Named(s.now.domains, id, name.value) <==> s.now.domains[id].name == name.value);
      SavedMeans(o, s.(now := s.now.(domains := s.now.domains[mint := Domain(name.value, false)])), disk, Answer(201, Some(mint)));
    }
  }

  lemma SavedMeans(o: Options, s: State, disk: Disk, answer: Answer)
    ensures var (t, given) := Saved(o, s, disk, answer);
      && t.now == s.now && t.up == s.up && t.journal == s.journal && FileIs(o, s, t, disk, true)
      && given == if o.keeps ==> disk.state.Through? then answer else Broken
  {
  }

  // One domain is verified, at once, and keeps its name.
  lemma VerifyMeans(o: Options, s: State, id: Id, disk: Disk)
    ensures var (t, answer) := Verified(o, s, id, disk);
      var there := id in s.now.domains;
      && t.up == s.up && t.now.mail == s.now.mail && t.now.byKey == s.now.byKey && t.journal == s.journal
      && (!there ==> t == s && answer == Answer(404, None))
      && (there ==> t.now.domains.Keys == s.now.domains.Keys && t.now.domains[id] == Domain(s.now.domains[id].name, true))
      && (forall other :: other in s.now.domains && other != id ==> other in t.now.domains && t.now.domains[other] == s.now.domains[other])
      && FileIs(o, s, t, disk, there)
      && (there ==> answer == if o.keeps ==> disk.state.Through? then Answer(200, Some(id)) else Broken)
  {
  }

  // What was sent is what is read, then and after any run that may not forget.
  lemma SentIsRead(o: Options, s: State, key: string, mail: Mail, mint: Id, disk: Disk, events: seq<Event>, other: Id, later: Disk)
    requires Inv(o, s) && s.up && Unused(s, mint) && First(s, key)
    requires var t := Sent(o, s, key, Usable(mail), mint, disk).0;
      AllMinted(o, t, events) && (NeverRestarts(events) || (o.keeps && SoundThroughout(o, t, events)))
    ensures var after := After(o, Sent(o, s, key, Usable(mail), mint, disk).0, events);
      Answered(o, after, GetMail(mint), other, later).1 == ShowsMail(mint, mail)
  {
    hide Sent, Inv, Unused, AllMinted, SoundThroughout, NeverRestarts, After, First;
    SendMeansMail(o, s, key, mail, mint, disk);
    SentKeeps(o, s, key, Usable(mail), mint, disk);
    RunLasts(o, Sent(o, s, key, Usable(mail), mint, disk).0, events);
  }

  lemma SendMeansMail(o: Options, s: State, key: string, mail: Mail, mint: Id, disk: Disk)
    requires First(s, key)
    ensures var t := Sent(o, s, key, Usable(mail), mint, disk).0;
      mint in t.now.mail && t.now.mail[mint] == mail
  {
    hide Sent, FileIs, MailEncodes;
    SendMeans(o, s, key, Usable(mail), mint, disk);
  }

  // ------------------------------------------------------------------
  // What breaks it
  // ------------------------------------------------------------------

  // Which bodies do what to a fresh key: one that is not JSON leaves the state
  // as it was, one the handler cannot use takes the key for an identifier nobody
  // can read, and one it can use serves it, whatever the disk does.
  lemma BodiesAndTheKey(o: Options, s: State, key: string, body: Body<Mail>, mint: Id, disk: Disk)
    requires Unused(s, mint) && key != "" && key !in s.now.byKey
    ensures var after := Sent(o, s, key, body, mint, disk).0;
      && (after == s <==> body.NotJson?)
      && (key in after.now.byKey && after.now.byKey[key] !in after.now.mail <==> body.Unusable?)
      && (Served(after.now, key) <==> body.Usable?)
  {
    hide Saved, JournalRaises;
    if body.Usable? {
      var put := s.(now := s.now.(byKey := Keyed(s.now.byKey, key, mint), mail := s.now.mail[mint := body.value]));
      SavedNow(o, if o.journals then put.(journal := s.journal + [Line(mint, key)]) else put, disk, Answer(200, Some(mint)));
    }
  }

  // A first send with a state file and a journal: it is served if its body can
  // be used; it is journalled, kept and answered as well exactly when every
  // journalled field encodes and both writes go through.
  lemma SentExact(o: Options, s: State, key: string, body: Body<Mail>, mint: Id, disk: Disk)
    requires Inv(o, s) && Unused(s, mint) && o.keeps && o.journals && Sound(o, s)
    requires key != "" && key !in s.now.byKey && body.Usable?
    ensures var (after, answer) := Sent(o, s, key, body, mint, disk);
      && Served(after.now, key)
      && (LinesOf(after.journal, key) == [mint] <==> disk.journal && MailEncodes(body.value))
      && (answer == Answer(200, Some(mint)) <==> disk.journal && MailEncodes(body.value) && disk.state.Through?)
      && (Sound(o, after) <==> disk.journal && MailEncodes(body.value) && disk.state.Through?)
  {
    SentSound(o, s, key, body, mint, disk);
    BodiesAndTheKey(o, s, key, body, mint, disk);
    hide MailEncodes, Lossless, NamesDistinct, Behind;
    assert LinesOf(s.journal, key) == LinesFor(s.now, key) == [];
    hide LinesOf, JournalExact, Served;
    OneMoreLine(s.journal, Line(mint, key), key);
  }

  // A key taken by a body the handler could not use answers an identifier nobody
  // can read. A restart at once forgets it; one after anything was kept does not.
  lemma UnusableTakesTheKey(o: Options, s: State, key: string, body: Body<Mail>, mail: Mail, mint: Id, next: Id, disk: Disk)
    requires Inv(o, s) && s.up && Unused(s, mint) && key != "" && key !in s.now.byKey && !body.NotJson?
    requires Unused(Sent(o, s, key, Unusable, mint, disk).0, next)
    ensures var broken := Sent(o, s, key, Unusable, mint, disk).0;
      && Answered(o, broken, Send(key, body), next, disk) == (broken, Answer(200, Some(mint)))
      && Answered(o, broken, GetMail(mint), next, disk).1 == Answer(404, None)
      && key !in Restarted(o, broken).now.byKey
    ensures var broken := Sent(o, s, key, Unusable, mint, disk).0;
      var later := Restarted(o, Deposited(o, broken, Usable(mail), next, Disk(true, Through)).0);
      o.keeps ==> key in later.now.byKey && later.now.byKey[key] == mint && mint !in later.now.mail
  {
    hide NamesDistinct;
  }

  // A process stopped after the journal's line and before the state is kept.
  function CutShort(o: Options, s: State, key: string, mint: Id): State {
    Restarted(o, s.(journal := s.journal + [Line(mint, key)]))
  }

  // The sender retries, and the same key is journalled twice, state file or not.
  lemma CutShortDoublesTheLine(o: Options, s: State, key: string, mail: Mail, mint: Id, later: Id, disk: Disk)
    requires Inv(o, s) && o.journals && JournalExact(s) && key != "" && key !in s.now.byKey
    requires Lossless(o, s) && !JournalRaises(o, mail, disk)
    ensures var cut := CutShort(o, s, key, mint);
      cut.up && LinesOf(Sent(o, cut, key, Usable(mail), later, disk).0.journal, key) == [mint, later]
  {
    hide LinesOf, NamesDistinct, JournalRaises, Saved;
    var cut := CutShort(o, s, key, mint);
    var journal := s.journal + [Line(mint, key)];
    OneMoreLine(s.journal, Line(mint, key), key);
    OneMoreLine(journal, Line(later, key), key);
    var put := cut.(now := cut.now.(byKey := Keyed(cut.now.byKey, key, later), mail := cut.now.mail[later := mail]));
    SavedNow(o, put.(journal := journal + [Line(later, key)]), disk, Answer(200, Some(later)));
  }

  // Without a state file a restart forgets the keys, and the same key is
  // journalled again under another identifier.
  lemma RestartForgets(o: Options, s: State, key: string, mail: Mail, mint: Id, disk: Disk)
    requires Inv(o, s) && !o.keeps && o.journals && JournalExact(s) && Served(s.now, key)
    requires !JournalRaises(o, mail, disk)
    ensures var restarted := Restarted(o, s);
      Unused(restarted, mint) && LinesOf(Sent(o, restarted, key, Usable(mail), mint, disk).0.journal, key) == [s.now.byKey[key], mint]
  {
    hide LinesOf, NamesDistinct, JournalRaises;
    OneMoreLine(s.journal, Line(mint, key), key);
    assert key != "";
  }

  // ------------------------------------------------------------------
  // The process
  // ------------------------------------------------------------------

  class Provider {
    const options: Options
    var up: bool
    var domains: map<Id, Domain>
    var byKey: map<string, Id>
    var mail: map<Id, Mail>
    var journal: seq<Line>
    var file: File

    ghost function Now(): State
      reads this
    {
      State(up, Snapshot(domains, byKey, mail), journal, file)
    }

    // `main`: what the state file holds is put back.
    constructor (options: Options, journal: seq<Line>, file: File)
      ensures this.options == options && Now() == Restarted(options, State(false, NOTHING, journal, file))
    {
      this.options := options;
      up := !(options.keeps && file.Garbled?);
      domains, byKey, mail := map[], map[], map[];
      this.journal := journal;
      this.file := file;
      if options.keeps && file.Holds? {
        domains, byKey, mail := file.snapshot.domains, file.snapshot.byKey, file.snapshot.mail;
      }
    }

    method Keep(disk: Disk, answer: Answer) returns (given: Answer)
      modifies this`file
      ensures (Now(), given) == Saved(options, old(Now()), disk, answer)
    {
      if !options.keeps {
        return answer;
      }
      match disk.state {
        case Through =>
          file := Holds(Snapshot(domains, byKey, mail));
          given := answer;
        case Refused =>
          given := Broken;
        case CutOff =>
          file := Garbled;
          given := Broken;
      }
    }

    method DoGet(r: Request) returns (answer: Answer)
      requires r.GetDomain? || r.GetMail?
      ensures (Now(), answer) == Answered(options, Now(), r, 0, Disk(true, Through))
    {
      match r {
        case GetDomain(id) => answer := if id in domains then ShowsDomain(id, domains[id]) else Answer(404, None);
        case GetMail(id) => answer := if id in mail then ShowsMail(id, mail[id]) else Answer(404, None);
      }
    }

    method DoPost(r: Request, mint: Id, disk: Disk) returns (answer: Answer)
      requires !r.GetDomain? && !r.GetMail? && Inv(options, Now())
      modifies this
      ensures (Now(), answer) == Answered(options, old(Now()), r, mint, disk)
    {
      hide Saved, Sent, Created;
      match r {
        case CreateDomain(name) =>
          answer := Create(name, mint, disk);
        case Verify(id) =>
          if id !in domains {
            return Answer(404, None);
          }
          domains := domains[id := domains[id].(verified := true)];
          answer := Keep(disk, Answer(200, Some(id)));
        case Deposit(m) =>
          if !m.Usable? {
            return Broken;
          }
          mail := mail[mint := Received(m.value)];
          answer := Keep(disk, Answer(200, Some(mint)));
        case Send(key, body) =>
          answer := Post(key, body, mint, disk);
      }
    }

    method Create(name: Body<Text>, mint: Id, disk: Disk) returns (answer: Answer)
      requires Inv(options, Now())
      modifies this`domains, this`file
      ensures (Now(), answer) == Created(options, old(Now()), name, mint, disk)
    {
      hide Saved;
      if !name.Usable? {
        return Broken;
      }
      var left := domains.Keys;
      while left != {}
        invariant left <= domains.Keys
        invariant forall id :: id in domains.Keys - left ==> domains[id].name != name.value
        invariant domains == old(domains) && file == old(file)
        decreases left
      {
        var id :| id in left;
        if domains[id].name == name.value {
          assert Named(domains, id, name.value);
          return Answer(200, Some(id));
        }
        left := left - {id};
      }
      domains := domains[mint := Domain(name.value, false)];
      answer := Keep(disk, Answer(201, Some(mint)));
    }

    method Post(key: string, body: Body<Mail>, mint: Id, disk: Disk) returns (answer: Answer)
      modifies this
      ensures (Now(), answer) == Sent(options, old(Now()), key, body, mint, disk)
    {
      hide Saved;
      if body.NotJson? {
        return Broken;
      }
      if key != "" && key in byKey {
        return Answer(200, Some(byKey[key]));
      }
      if key != "" {
        byKey := byKey[key := mint];
      }
      if body.Unusable? {
        return Broken;
      }
      mail := mail[mint := body.value];
      if options.journals {
        if !disk.journal || !MailEncodes(body.value) {
          return Broken;
        }
        journal := journal + [Line(mint, key)];
      }
      answer := Keep(disk, Answer(200, Some(mint)));
    }
  }
}
