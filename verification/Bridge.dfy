/** The bridges: containers leased by name in this process and running, or not,
    in a Docker that can lose a command and whose containers can exit. */
module Bridge {
  import opened Common
  import opened Text
  import Ports

  // ------------------------------------------------------------------
  // Names
  // ------------------------------------------------------------------

  // A tenant's uuid in the simple form: 32 characters.
  type Simple = s: string | |s| == 32 witness seq(32, _ => '0')

  const PREFIX := "agentos-bridge-"

  function NameOf(tenant: Simple, server: string): string {
    PREFIX + tenant + "-" + server
  }

  // No two bindings share a container.
  lemma NamesAreDistinct(t: Simple, s: string, u: Simple, v: string)
    ensures NameOf(t, s) == NameOf(u, v) <==> t == u && s == v
  {
    var a, b := NameOf(t, s), NameOf(u, v);
    assert a[|PREFIX|..|PREFIX| + 32] == t && a[|PREFIX| + 33..] == s;
    assert b[|PREFIX|..|PREFIX| + 32] == u && b[|PREFIX| + 33..] == v;
  }

  // ------------------------------------------------------------------
  // Docker
  // ------------------------------------------------------------------

  // A container: whether it carries our mark, the package it was started for,
  // whether it runs, and what `docker ps` prints of its ports while it does.
  datatype Container = Container(marked: bool, package: string, running: bool, ports: string)

  type Docker = map<string, Container>

  // A command answers, or fails having taken effect or not.
  datatype Answer = Done | Lost(effect: bool)

  // One command: how it ends, and which containers exit on their own before it.
  datatype Command = Command(answer: Answer, exits: set<string>)

  predicate TakesEffect(c: Command) {
    c.answer.Done? || c.answer.effect
  }

  function Exit(docker: Docker, names: set<string>): Docker {
    map name | name in docker :: if name in names then docker[name].(running := false) else docker[name]
  }

  predicate Runs(docker: Docker, name: string) {
    name in docker && docker[name].running
  }

  // `docker ps --filter name=^…$ [--filter label=…]`: the ports of a running one.
  function Listed(docker: Docker, name: string, package: Option<string>): string {
    if Runs(docker, name) && (package.Some? ==> docker[name].package == package.value) then docker[name].ports else ""
  }

  function Remove(docker: Docker, name: string, c: Command): Docker {
    var before := Exit(docker, c.exits);
    if TakesEffect(c) then before - {name} else before
  }

  // `docker run`, which a container of the same name makes fail.
  function Launch(docker: Docker, name: string, package: string, ports: string, c: Command): (Docker, bool) {
    var before := Exit(docker, c.exits);
    if name in before then (before, false)
    else if TakesEffect(c) then (before[name := Container(true, package, true, ports)], c.answer.Done?)
    else (before, false)
  }

  // ------------------------------------------------------------------
  // One start, as a function
  // ------------------------------------------------------------------

  datatype World = World(leases: map<string, int>, docker: Docker)

  datatype Error = Runtime | NoEndpoint

  // One call: when it reaps and when it leases, for what, and how each of its
  // commands fares. `spared` are the expired names whose removal has no effect;
  // `ports` is what a container started now prints.
  datatype Call = Call(now: int, leased: int, name: string, package: string, spared: set<string>, exits: set<string>,
                       find: Command, clear: Command, run: Command, ports: string, ask: Command, discard: Command)

  function Expired(leases: map<string, int>, now: int, idle: nat): set<string> {
    set name | name in leases && leases[name] < now - idle
  }

  function Unexpired(leases: map<string, int>, now: int, idle: nat): map<string, int> {
    leases - Expired(leases, now, idle)
  }

  function Reaped(w: World, call: Call, idle: nat): World {
    var gone := Expired(w.leases, call.now, idle);
    World(w.leases - gone, Exit(w.docker, call.exits) - (gone - call.spared))
  }

  function Started(w: World, call: Call, idle: nat): (World, Result<nat, Error>) {
    var World(leases, reaped) := Reaped(w, call, idle);
    var found := Exit(reaped, call.find.exits);
    if call.find.answer.Lost? then (World(leases, found), Err(Runtime))
    else
      var live := Ports.Published(Listed(found, call.name, Some(call.package)));
      if live.Some? then (World(leases[call.name := call.leased], found), Ok(live.value))
      else Replaced(leases, found, call)
  }

  // No bridge of that name runs that package: whatever is there makes way for one.
  function Replaced(leases: map<string, int>, found: Docker, call: Call): (World, Result<nat, Error>) {
    var (launched, answered) := Launch(Remove(found, call.name, call.clear), call.name, call.package, call.ports, call.run);
    if !answered then (World(leases, launched), Err(Runtime))
    else
      var asked := Exit(launched, call.ask.exits);
      if call.ask.answer.Lost? then (World(leases, asked), Err(Runtime))
      else
        var port := Ports.Published(Listed(asked, call.name, None));
        if port.None? then (World(leases, Remove(asked, call.name, call.discard)), Err(NoEndpoint))
        else (World(leases[call.name := call.leased], asked), Ok(port.value))
  }

  // ------------------------------------------------------------------
  // What a start owes, said of Docker, the leases and the commands
  // ------------------------------------------------------------------

  // The lease is older than the idle time, and the removal takes effect.
  predicate ReapedAway(w: World, call: Call, idle: nat) {
    call.name in w.leases && call.now - w.leases[call.name] > idle && call.name !in call.spared
  }

  // The first listing answers and shows the bridge, running the package and
  // publishing this port.
  predicate ShownLive(w: World, call: Call, idle: nat, port: nat) {
    && call.find.answer.Done?
    && call.name in w.docker && w.docker[call.name].running && w.docker[call.name].package == call.package
    && call.name !in call.exits && call.name !in call.find.exits && !ReapedAway(w, call, idle)
    && Ports.Published(w.docker[call.name].ports) == Some(port)
  }

  predicate SomethingLive(w: World, call: Call, idle: nat) {
    w.docker.Keys != {} && call.name in w.docker && Ports.Published(w.docker[call.name].ports).Some?
    && ShownLive(w, call, idle, Ports.Published(w.docker[call.name].ports).value)
  }

  // None is shown, the name is free or freed, and the run and the question after
  // it answer.
  predicate RunsNew(w: World, call: Call, idle: nat) {
    && call.find.answer.Done? && !SomethingLive(w, call, idle)
    && (call.name !in w.docker || ReapedAway(w, call, idle) || call.clear.answer.Done? || call.clear.answer.effect)
    && call.run.answer.Done? && call.ask.answer.Done?
  }

  // What it runs still runs when asked about, publishing this port.
  predicate PublishesNew(call: Call, port: nat) {
    call.name !in call.ask.exits && Ports.Published(call.ports) == Some(port)
  }

  // The whole of what a caller is owed: which port, which error, which leases,
  // and what is left of a bridge that was live.
  ghost predicate Owed(w: World, call: Call, idle: nat, after: World, answer: Result<nat, Error>) {
    && (forall port: nat :: answer == Ok(port) <==> ShownLive(w, call, idle, port) || (RunsNew(w, call, idle) && PublishesNew(call, port)))
    && (answer == Err(NoEndpoint) <==> RunsNew(w, call, idle) && !exists port :: PublishesNew(call, port))
    && (forall name :: name in after.leases <==>
          || (answer.Ok? && name == call.name)
          || (name in w.leases && call.now - w.leases[name] <= idle))
    && (forall name :: name in after.leases ==>
          after.leases[name] == if answer.Ok? && name == call.name then call.leased else w.leases[name])
    && (SomethingLive(w, call, idle) ==> call.name in after.docker && after.docker[call.name] == w.docker[call.name])
    && (answer.Ok? && !SomethingLive(w, call, idle) ==>
          call.name in after.docker && after.docker[call.name] == Container(true, call.package, true, call.ports))
  }

  lemma LiveIsOne(w: World, call: Call, idle: nat, port: nat)
    requires ShownLive(w, call, idle, port)
    ensures SomethingLive(w, call, idle)
  {
  }

  // The first listing, as the commands see it.
  lemma FoundMeans(w: World, call: Call, idle: nat)
    requires call.find.answer.Done?
    ensures var live := Ports.Published(Listed(Exit(Reaped(w, call, idle).docker, call.find.exits), call.name, Some(call.package)));
      && (live.Some? <==> SomethingLive(w, call, idle))
      && (forall port: nat :: live == Some(port) <==> ShownLive(w, call, idle, port))
  {
    hide Ports.Published;
    NothingPublished();
  }

  // What replacing the bridge answers.
  lemma ReplacedMeans(leases: map<string, int>, found: Docker, call: Call)
    ensures var (after, answer) := Replaced(leases, found, call);
      var runs := (call.name !in found || TakesEffect(call.clear)) && call.run.answer.Done? && call.ask.answer.Done?;
      && (forall port: nat :: answer == Ok(port) <==> runs && PublishesNew(call, port))
      && (answer == Err(NoEndpoint) <==> runs && !exists port :: PublishesNew(call, port))
      && after.leases == (if answer.Ok? then leases[call.name := call.leased] else leases)
      && (answer.Ok? ==> call.name in after.docker && after.docker[call.name] == Container(true, call.package, true, call.ports))
  {
    hide Ports.Published;
    NothingPublished();
    assert (exists port :: PublishesNew(call, port)) <==> call.name !in call.ask.exits && Ports.Published(call.ports).Some? by {
      if call.name !in call.ask.exits && Ports.Published(call.ports).Some? {
        assert PublishesNew(call, Ports.Published(call.ports).value);
      }
    }
  }

  lemma NothingPublished()
    ensures Ports.Published("") == None
  {
    Ports.PublishedIsHostPort([]);
  }

  lemma NameLeft(w: World, call: Call, idle: nat)
    ensures var found := Exit(Reaped(w, call, idle).docker, call.find.exits);
      && (call.name in found <==> call.name in w.docker && !ReapedAway(w, call, idle))
      && (SomethingLive(w, call, idle) ==> call.name in found && found[call.name] == w.docker[call.name])
      && (forall name :: name in Reaped(w, call, idle).leases <==> name in w.leases && call.now - w.leases[name] <= idle)
      && (forall name :: name in Reaped(w, call, idle).leases ==> Reaped(w, call, idle).leases[name] == w.leases[name])
  {
    hide Ports.Published;
  }

  lemma StartedIsOwed(w: World, call: Call, idle: nat)
    ensures var (after, answer) := Started(w, call, idle);
      Owed(w, call, idle, after, answer)
  {
    NameLeft(w, call, idle);
    var reaped := Reaped(w, call, idle);
    ReplacedMeans(reaped.leases, Exit(reaped.docker, call.find.exits), call);
    if call.find.answer.Done? {
      FoundMeans(w, call, idle);
    }
    hide Ports.Published, Reaped, Exit, Listed, Replaced, ReapedAway, PublishesNew;
  }

  // ------------------------------------------------------------------
  // The runtime
  // ------------------------------------------------------------------

  class Containers {
    const idle: nat
    var leases: map<string, int>
    // Docker itself, which this process commands and does not own.
    var docker: Docker

    constructor (idle: nat, docker: Docker)
      ensures this.idle == idle && leases == map[] && this.docker == docker
    {
      this.idle := idle;
      leases := map[];
      this.docker := docker;
    }

    ghost function Now(): World
      reads this
    {
      World(leases, docker)
    }

    // The boot's sweep: every marked container, listed and removed, or a
    // warning. A removal that fails may have removed some.
    method Sweep(list: Command, rm: Command, removed: set<string>)
      modifies this`docker
      ensures list.answer.Done? && rm.answer.Done? ==> forall name :: name in docker ==> !docker[name].marked
      ensures forall name :: name in docker ==> name in old(docker) && docker[name].marked == old(docker)[name].marked
      ensures forall name :: name in old(docker) && !old(docker)[name].marked ==> name in docker
    {
      docker := Exit(docker, list.exits);
      if list.answer.Lost? {
        return;
      }
      var ids := set name | name in docker && docker[name].marked;
      assert forall name :: name in docker && docker[name].marked ==> name in ids;
      if ids == {} {
        return;
      }
      docker := Exit(docker, rm.exits);
      docker := docker - if rm.answer.Done? then ids else ids * removed;
    }

    method Reap(call: Call)
      modifies this
      ensures Now() == Reaped(old(Now()), call, idle)
    {
      var gone := Expired(leases, call.now, idle);
      leases := leases - gone;
      docker := Exit(docker, call.exits);
      ghost var before := docker;
      var left := gone;
      while left != {}
        invariant left <= gone
        invariant docker == before - ((gone - left) - call.spared)
        invariant leases == old(leases) - gone
        decreases left
      {
        var name :| name in left;
        if name !in call.spared {
          docker := docker - {name};
        }
        left := left - {name};
      }
    }

    method Start(call: Call) returns (endpoint: Result<nat, Error>)
      modifies this
      ensures (Now(), endpoint) == Started(old(Now()), call, idle)
      ensures Owed(old(Now()), call, idle, Now(), endpoint)
    {
      StartedIsOwed(Now(), call, idle);
      hide Owed;
      Reap(call);
      docker := Exit(docker, call.find.exits);
      if call.find.answer.Lost? {
        return Err(Runtime);
      }
      var live := Ports.Published(Listed(docker, call.name, Some(call.package)));
      if live.Some? {
        leases := leases[call.name := call.leased];
        return Ok(live.value);
      }
      docker := Remove(docker, call.name, call.clear);
      var launched := Launch(docker, call.name, call.package, call.ports, call.run);
      docker := launched.0;
      if !launched.1 {
        return Err(Runtime);
      }
      docker := Exit(docker, call.ask.exits);
      if call.ask.answer.Lost? {
        return Err(Runtime);
      }
      var port := Ports.Published(Listed(docker, call.name, None));
      if port.None? {
        docker := Remove(docker, call.name, call.discard);
        return Err(NoEndpoint);
      }
      leases := leases[call.name := call.leased];
      return Ok(port.value);
    }
  }

  // ------------------------------------------------------------------
  // What an answer means
  // ------------------------------------------------------------------

  // A port is answered exactly for a container of the binding's name, running,
  // started for the package asked and seen publishing that port; it now holds
  // a fresh lease. No answer grants one.
  lemma OkMeansServed(w: World, call: Call, idle: nat)
    ensures var (after, endpoint) := Started(w, call, idle);
      match endpoint
      case Ok(port) =>
        && Runs(after.docker, call.name)
        && after.docker[call.name].package == call.package
        && Ports.Published(after.docker[call.name].ports) == Some(port)
        && after.leases == Unexpired(w.leases, call.now, idle)[call.name := call.leased]
      case Err(_) => after.leases == Unexpired(w.leases, call.now, idle)
  {
    hide Ports.Published, Expired;
    NothingPublished();
  }

  // Reaping drops exactly the leases older than the idle time, and removes no
  // container but theirs.
  lemma ReapsTheIdle(w: World, call: Call, idle: nat, name: string)
    ensures var after := Reaped(w, call, idle);
      && (name in after.leases <==> name in w.leases && call.now - idle <= w.leases[name])
      && (name in after.leases ==> after.leases[name] == w.leases[name])
      && (name in w.docker && (name in w.leases ==> call.now - idle <= w.leases[name]) ==> name in after.docker)
  {
  }

  // ------------------------------------------------------------------
  // Whether every running bridge is leased
  // ------------------------------------------------------------------

  ghost predicate Covered(w: World) {
    forall name :: Runs(w.docker, name) && w.docker[name].marked ==> name in w.leases
  }

  predicate Faultless(call: Call) {
    && call.spared == {}
    && call.find.answer.Done? && call.clear.answer.Done? && call.run.answer.Done? && call.ask.answer.Done? && call.discard.answer.Done?
  }

  // The run leaves a bridge running that no command reports: its own answer is
  // lost, or the question after it is, or it publishes nothing and its removal
  // has no effect; and it does not exit on its own meanwhile.
  predicate Strands(w: World, call: Call, idle: nat) {
    var found := Exit(Reaped(w, call, idle).docker, call.find.exits);
    && call.find.answer.Done?
    && Ports.Published(Listed(found, call.name, Some(call.package))).None?
    && StrandsNew(found, call)
  }

  predicate StrandsNew(found: Docker, call: Call) {
    && call.name !in Remove(found, call.name, call.clear) && TakesEffect(call.run)
    && (|| call.run.answer.Lost?
        || (call.name !in call.ask.exits && call.ask.answer.Lost?)
        || (call.name !in call.ask.exits && Ports.Published(call.ports).None?
            && !TakesEffect(call.discard) && call.name !in call.discard.exits))
  }

  // The containers that exit on their own while a start's commands are given:
  // those after the one it stops at are not.
  function ExitsOf(w: World, call: Call, idle: nat): set<string> {
    var found := Exit(Reaped(w, call, idle).docker, call.find.exits);
    call.exits + call.find.exits
    + if call.find.answer.Lost? || Ports.Published(Listed(found, call.name, Some(call.package))).Some? then {}
      else ExitsReplacing(found, call)
  }

  function ExitsReplacing(found: Docker, call: Call): set<string> {
    var (launched, answered) := Launch(Remove(found, call.name, call.clear), call.name, call.package, call.ports, call.run);
    call.clear.exits + call.run.exits
    + if !answered then {}
      else call.ask.exits
           + if call.ask.answer.Lost? || Ports.Published(Listed(Exit(launched, call.ask.exits), call.name, None)).Some? then {}
             else call.discard.exits
  }

  // The call neither finds the old bridge of its name live nor removes it.
  predicate KeepsOld(w: World, call: Call, idle: nat) {
    var found := Exit(Reaped(w, call, idle).docker, call.find.exits);
    || call.find.answer.Lost?
    || (Ports.Published(Listed(found, call.name, Some(call.package))).None? && !TakesEffect(call.clear))
  }

  // A bridge whose lease expired, whose removal had no effect and which runs on;
  // if it is the call's own, one the call does not lease again or remove either.
  predicate Overlooked(w: World, call: Call, idle: nat, name: string) {
    && name in Expired(w.leases, call.now, idle) && name in call.spared
    && Runs(w.docker, name) && w.docker[name].marked && name !in ExitsOf(w, call, idle)
    && (name == call.name ==> KeepsOld(w, call, idle))
  }

  // A container of another name is left as it is, or seen to exit.
  predicate OnlyExits(before: Docker, after: Docker, exits: set<string>, name: string) {
    && (name in after <==> name in before)
    && (name in after ==> after[name].marked == before[name].marked)
    && (Runs(after, name) <==> Runs(before, name) && name !in exits)
  }

  lemma CommandsSpareOthers(docker: Docker, call: Call, c: Command, name: string)
    requires name != call.name
    ensures OnlyExits(docker, Exit(docker, c.exits), c.exits, name)
    ensures OnlyExits(docker, Remove(docker, call.name, c), c.exits, name)
    ensures OnlyExits(docker, Launch(docker, call.name, call.package, call.ports, c).0, c.exits, name)
  {
  }

  lemma ReplacingSparesOthers(leases: map<string, int>, found: Docker, call: Call, name: string)
    requires name != call.name
    ensures var after := Replaced(leases, found, call).0;
      OnlyExits(found, after.docker, ExitsReplacing(found, call), name) && (name in after.leases <==> name in leases)
  {
    hide Ports.Published, Exit, Remove, Launch, Listed;
    var cleared := Remove(found, call.name, call.clear);
    var launched := Launch(cleared, call.name, call.package, call.ports, call.run).0;
    CommandsSpareOthers(found, call, call.clear, name);
    CommandsSpareOthers(cleared, call, call.run, name);
    CommandsSpareOthers(launched, call, call.ask, name);
    CommandsSpareOthers(Exit(launched, call.ask.exits), call, call.discard, name);
  }

  // What is left of another name once the expired are reaped.
  lemma ReapedOther(w: World, call: Call, idle: nat, name: string)
    ensures var reaped := Reaped(w, call, idle);
      && (Runs(reaped.docker, name) <==>
            Runs(w.docker, name) && name !in call.exits && (name in Expired(w.leases, call.now, idle) ==> name in call.spared))
      && (name in reaped.docker ==> name in w.docker && reaped.docker[name].marked == w.docker[name].marked)
      && (name in reaped.leases <==> name in w.leases && name !in Expired(w.leases, call.now, idle))
  {
  }

  lemma OtherCover(w: World, call: Call, idle: nat, name: string)
    requires Covered(w) && name != call.name
    ensures var after := Started(w, call, idle).0;
      Runs(after.docker, name) && after.docker[name].marked && name !in after.leases <==> Overlooked(w, call, idle, name)
  {
    hide Ports.Published, Reaped, Replaced, Exit, ExitsReplacing, Expired;
    var reaped := Reaped(w, call, idle);
    ReapedOther(w, call, idle, name);
    CommandsSpareOthers(reaped.docker, call, call.find, name);
    ReplacingSparesOthers(reaped.leases, Exit(reaped.docker, call.find.exits), call, name);
  }

  lemma OwnCover(w: World, call: Call, idle: nat)
    requires Covered(w)
    ensures var after := Started(w, call, idle).0;
      Runs(after.docker, call.name) && after.docker[call.name].marked && call.name !in after.leases <==>
        (call.name !in Unexpired(w.leases, call.now, idle) && Strands(w, call, idle)) || Overlooked(w, call, idle, call.name)
  {
    OkMeansServed(w, call, idle);
    if call.name !in Unexpired(w.leases, call.now, idle) {
      hide Ports.Published, Replaced, StrandsNew, ExitsReplacing, Expired;
      var reaped := Reaped(w, call, idle);
      var found := Exit(reaped.docker, call.find.exits);
      ReapedOther(w, call, idle, call.name);
      NewBridgeCover(reaped.leases, found, call);
    }
  }

  // No bridge is found live under the call's own name: what runs there unleased
  // in the end is the new one, stranded, or the old one, not removed.
  lemma NewBridgeCover(leases: map<string, int>, found: Docker, call: Call)
    requires call.name !in leases
    ensures var after := Replaced(leases, found, call).0;
      Runs(after.docker, call.name) && after.docker[call.name].marked && call.name !in after.leases <==>
        || StrandsNew(found, call)
        || (Runs(found, call.name) && found[call.name].marked && !TakesEffect(call.clear) && call.name !in ExitsReplacing(found, call))
  {
    hide Ports.Published;
    NothingPublished();
  }

  // A start leaves a running bridge without a lease in two ways and no other:
  // it strands the one it runs, or it reaps the lease of one it does not remove.
  lemma CoverageIsExact(w: World, call: Call, idle: nat)
    requires Covered(w)
    ensures Covered(Started(w, call, idle).0) <==>
      && (call.name in Unexpired(w.leases, call.now, idle) || !Strands(w, call, idle))
      && forall name :: !Overlooked(w, call, idle, name)
  {
    hide Strands, Started, Overlooked;
    OwnCover(w, call, idle);
    forall name | name != call.name
      ensures var after := Started(w, call, idle).0;
        Runs(after.docker, name) && after.docker[name].marked && name !in after.leases <==> Overlooked(w, call, idle, name)
    {
      OtherCover(w, call, idle, name);
    }
    var after := Started(w, call, idle).0;
    assert Overlooked(w, call, idle, call.name) ==> Runs(after.docker, call.name) && after.docker[call.name].marked && call.name !in after.leases;
  }

  // ------------------------------------------------------------------
  // Over any sequence of starts
  // ------------------------------------------------------------------

  function After(w: World, calls: seq<Call>, idle: nat): World
    decreases |calls|
  {
    if calls == [] then w else After(Started(w, calls[0], idle).0, calls[1..], idle)
  }

  lemma FaultlessLeavesNothing(w: World, call: Call, idle: nat)
    requires Faultless(call)
    ensures !Strands(w, call, idle)
    ensures forall name :: !Overlooked(w, call, idle, name)
  {
    hide Ports.Published, Reaped, Exit;
  }

  // From a boot whose sweep left no marked container, and through any starts
  // whose commands all answer, every running bridge has a lease, whatever
  // containers exit meanwhile.
  lemma {:induction false} CoveredThroughout(w: World, calls: seq<Call>, idle: nat)
    requires Covered(w) && forall call :: call in calls ==> Faultless(call)
    ensures Covered(After(w, calls, idle))
    decreases |calls|
  {
    hide Started, Covered, Faultless, Strands, Overlooked;
    if calls != [] {
      assert Faultless(calls[0]);
      FaultlessLeavesNothing(w, calls[0], idle);
      CoverageIsExact(w, calls[0], idle);
      CoveredThroughout(Started(w, calls[0], idle).0, calls[1..], idle);
    }
  }

  lemma CoveredSinceBoot(docker: Docker, calls: seq<Call>, idle: nat)
    requires forall name :: name in docker ==> !docker[name].marked
    requires forall call :: call in calls ==> Faultless(call)
    ensures Covered(After(World(map[], docker), calls, idle))
  {
    CoveredThroughout(World(map[], docker), calls, idle);
  }

  predicate Survives(call: Call, name: string) {
    && name != call.name && name !in call.exits
    && name !in call.find.exits && name !in call.clear.exits && name !in call.run.exits && name !in call.ask.exits && name !in call.discard.exits
  }

  lemma KeptByOther(w: World, call: Call, idle: nat, name: string)
    requires Runs(w.docker, name) && Survives(call, name)
    requires name in w.leases ==> call.now - idle <= w.leases[name]
    ensures var after := Started(w, call, idle).0;
      && Runs(after.docker, name)
      && (name in after.leases <==> name in w.leases)
      && (name in w.leases ==> after.leases[name] == w.leases[name])
  {
    hide Ports.Published, Listed;
  }

  // Starts for other bindings never stop a container that does not exit on its
  // own, unless its lease is older than the idle time: so an unexpired lease
  // protects its bridge, and one left with no lease, stranded by its own start
  // or overlooked by a reaping, is never reaped at all.
  lemma {:induction false} OnlyAnExpiredLeaseStopsIt(w: World, calls: seq<Call>, idle: nat, name: string)
    requires Runs(w.docker, name)
    requires forall call :: call in calls ==> Survives(call, name) && (name in w.leases ==> call.now - idle <= w.leases[name])
    ensures var after := After(w, calls, idle);
      Runs(after.docker, name) && (name in after.leases <==> name in w.leases)
    decreases |calls|
  {
    hide Started, Survives, Runs;
    if calls != [] {
      assert calls[0] in calls;
      KeptByOther(w, calls[0], idle, name);
      OnlyAnExpiredLeaseStopsIt(Started(w, calls[0], idle).0, calls[1..], idle, name);
    }
  }
}
