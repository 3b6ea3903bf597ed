/** The operator's command lines: `policy install` for one layer and
    `flow promote`, read by an index over their words. */
module CommandLine {
  import opened Common
  import opened Text

  // ------------------------------------------------------------------
  // Words and pieces
  // ------------------------------------------------------------------

  datatype Flag = TenantFlag | RoleFlag | EmployeeFlag | ByFlag | AllFlag

  datatype Word = Known(flag: Flag) | Unknown | Plain

  predicate Dashed(word: string) {
    word != "" && word[0] == '-'
  }

  function Spelling(flag: Flag): string {
    match flag
    case TenantFlag => "--tenant"
    case RoleFlag => "--role"
    case EmployeeFlag => "--employee"
    case ByFlag => "--by"
    case AllFlag => "--all"
  }

  function Read(word: string): Word {
    if word == Spelling(TenantFlag) then Known(TenantFlag)
    else if word == Spelling(RoleFlag) then Known(RoleFlag)
    else if word == Spelling(EmployeeFlag) then Known(EmployeeFlag)
    else if word == Spelling(ByFlag) then Known(ByFlag)
    else if word == Spelling(AllFlag) then Known(AllFlag)
    else if Dashed(word) then Unknown
    else Plain
  }

  lemma ReadSpelling(flag: Flag, word: string)
    ensures Read(Spelling(flag)) == Known(flag)
    ensures Dashed(Spelling(flag))
    ensures !Dashed(word) ==> Read(word) == Plain
  {
    assert Spelling(TenantFlag)[2] == 't' && Spelling(RoleFlag)[2] == 'r' && Spelling(EmployeeFlag)[2] == 'e';
    assert Spelling(ByFlag)[2] == 'b' && Spelling(AllFlag)[2] == 'a';
    assert Spelling(flag)[0] == '-';
  }

  // A flag and its value, a flag alone, or a positional word.
  datatype Piece = Valued(flag: Flag, value: string) | Bare(flag: Flag) | Positional(word: string)

  datatype Error = Usage | NeedsValue(flag: Flag) | BadValue(flag: Flag) | BadWord | TwoScopes | TwoFiles | NoFile | NoName | AllAndSome | Neither

  function Width(p: Piece): nat {
    if p.Valued? then 2 else 1
  }

  // What is read at one index by a command that knows these flags: a value is
  // the next word, which must be there and not be a flag.
  function Next(known: set<Flag>, args: seq<string>, i: nat): (piece: Result<Piece, Error>)
    requires i < |args|
    ensures piece.Ok? ==> i + Width(piece.value) <= |args|
  {
    match Read(args[i])
    case Unknown => Err(Usage)
    case Plain => Ok(Positional(args[i]))
    case Known(flag) =>
      if flag !in known then Err(Usage)
      else if flag.AllFlag? then Ok(Bare(flag))
      else if i + 1 < |args| && !Dashed(args[i + 1]) then Ok(Valued(flag, args[i + 1]))
      else Err(NeedsValue(flag))
  }

  // A reading of the words from an index on, accumulated piece by piece.
  type Adder<!A> = (A, Piece) -> Result<A, Error>

  function Scan<A>(known: set<Flag>, add: Adder<A>, args: seq<string>, i: nat, acc: A): Result<A, Error>
    requires i <= |args|
    decreases |args| - i
  {
    if i == |args| then Ok(acc)
    else match Next(known, args, i)
      case Err(e) => Err(e)
      case Ok(piece) =>
        match add(acc, piece)
        case Err(e) => Err(e)
        case Ok(more) => Scan(known, add, args, i + Width(piece), more)
  }

  // ------------------------------------------------------------------
  // One layer
  // ------------------------------------------------------------------

  datatype Std = Std(uuid: string -> Option<nat>, slug: string -> Option<string>)

  datatype Scope = WholeTenant | Role(name: string) | Employee(id: nat)

  datatype Layer = Layer(tenant: Option<nat>, scope: Option<Scope>, file: Option<string>)

  const LAYER_FLAGS: set<Flag> := {TenantFlag, RoleFlag, EmployeeFlag}

  function Narrow(acc: Layer, scope: Scope): Result<Layer, Error> {
    if acc.scope.Some? then Err(TwoScopes) else Ok(acc.(scope := Some(scope)))
  }

  function AddLayer(std: Std, acc: Layer, p: Piece): Result<Layer, Error> {
    match p
    case Valued(TenantFlag, v) => if std.uuid(v).None? then Err(BadValue(TenantFlag)) else Ok(acc.(tenant := std.uuid(v)))
    case Valued(RoleFlag, v) => if std.slug(v).None? then Err(BadValue(RoleFlag)) else Narrow(acc, Role(std.slug(v).value))
    case Valued(EmployeeFlag, v) => if std.uuid(v).None? then Err(BadValue(EmployeeFlag)) else Narrow(acc, Employee(std.uuid(v).value))
    case Positional(word) => if acc.file.Some? then Err(TwoFiles) else Ok(acc.(file := Some(word)))
    case _ => Err(Usage)
  }

  function LayerAdder(std: Std): Adder<Layer> {
    (acc, p) => AddLayer(std, acc, p)
  }

  function FinishLayer(acc: Layer): Result<(nat, Scope, string), Error> {
    if acc.tenant.None? then Err(Usage)
    else if acc.file.None? then Err(NoFile)
    else Ok((acc.tenant.value, if acc.scope.Some? then acc.scope.value else WholeTenant, acc.file.value))
  }

  function LayerOf(std: Std, args: seq<string>): Result<(nat, Scope, string), Error> {
    match Scan(LAYER_FLAGS, LayerAdder(std), args, 0, Layer(None, None, None))
    case Err(e) => Err(e)
    case Ok(acc) => FinishLayer(acc)
  }

  // The index loop over the words.
  method ParseLayerArgs(std: Std, args: seq<string>) returns (parsed: Result<(nat, Scope, string), Error>)
    ensures parsed == LayerOf(std, args)
  {
    var tenant, scope, file := None, None, None;
    var i := 0;
    while i < |args|
      invariant i <= |args|
      invariant LayerOf(std, args) == match Scan(LAYER_FLAGS, LayerAdder(std), args, i, Layer(tenant, scope, file)) {
        case Err(e) => Err(e)
        case Ok(acc) => FinishLayer(acc)
      }
    {
      var flag := args[i];
      match Read(flag) {
        case Known(TenantFlag) =>
          if i + 1 == |args| || Dashed(args[i + 1]) {
            return Err(NeedsValue(TenantFlag));
          }
          if std.uuid(args[i + 1]).None? {
            return Err(BadValue(TenantFlag));
          }
          tenant := std.uuid(args[i + 1]);
          i := i + 2;
        case Known(RoleFlag) =>
          if i + 1 == |args| || Dashed(args[i + 1]) {
            return Err(NeedsValue(RoleFlag));
          }
          if std.slug(args[i + 1]).None? {
            return Err(BadValue(RoleFlag));
          }
          if scope.Some? {
            return Err(TwoScopes);
          }
          scope := Some(Role(std.slug(args[i + 1]).value));
          i := i + 2;
        case Known(EmployeeFlag) =>
          if i + 1 == |args| || Dashed(args[i + 1]) {
            return Err(NeedsValue(EmployeeFlag));
          }
          if std.uuid(args[i + 1]).None? {
            return Err(BadValue(EmployeeFlag));
          }
          if scope.Some? {
            return Err(TwoScopes);
          }
          scope := Some(Employee(std.uuid(args[i + 1]).value));
          i := i + 2;
        case Plain =>
          if file.Some? {
            return Err(TwoFiles);
          }
          file := Some(flag);
          i := i + 1;
        case _ =>
          return Err(Usage);
      }
    }
    if tenant.None? {
      return Err(Usage);
    }
    if file.None? {
      return Err(NoFile);
    }
    return Ok((tenant.value, if scope.Some? then scope.value else WholeTenant, file.value));
  }

  // ------------------------------------------------------------------
  // A promotion
  // ------------------------------------------------------------------

  datatype Promotion = Promotion(tenant: Option<nat>, who: Option<string>, all: bool, accounts: seq<nat>)

  datatype Which = All | These(accounts: seq<nat>)

  const PROMOTE_FLAGS: set<Flag> := {TenantFlag, ByFlag, AllFlag}

  function AddPromotion(std: Std, acc: Promotion, p: Piece): Result<Promotion, Error> {
    match p
    case Valued(TenantFlag, v) => if std.uuid(v).None? then Err(BadValue(TenantFlag)) else Ok(acc.(tenant := std.uuid(v)))
    case Valued(ByFlag, v) => Ok(acc.(who := Some(Trim(v))))
    case Bare(AllFlag) => Ok(acc.(all := true))
    case Positional(word) => if std.uuid(word).None? then Err(BadWord) else Ok(acc.(accounts := acc.accounts + [std.uuid(word).value]))
    case _ => Err(Usage)
  }

  function PromotionAdder(std: Std): Adder<Promotion> {
    (acc, p) => AddPromotion(std, acc, p)
  }

  function FinishPromotion(acc: Promotion): Result<(nat, string, Which), Error> {
    if acc.who.None? || acc.who.value == "" then Err(NoName)
    else if acc.tenant.None? then Err(Usage)
    else if acc.all && acc.accounts == [] then Ok((acc.tenant.value, acc.who.value, All))
    else if !acc.all && acc.accounts != [] then Ok((acc.tenant.value, acc.who.value, These(acc.accounts)))
    else Err(if acc.all then AllAndSome else Neither)
  }

  function PromotionOf(std: Std, args: seq<string>): Result<(nat, string, Which), Error> {
    match Scan(PROMOTE_FLAGS, PromotionAdder(std), args, 0, Promotion(None, None, false, []))
    case Err(e) => Err(e)
    case Ok(acc) => FinishPromotion(acc)
  }

  method ParsePromoteArgs(std: Std, args: seq<string>) returns (parsed: Result<(nat, string, Which), Error>)
    ensures parsed == PromotionOf(std, args)
  {
    var tenant, who, all, accounts := None, None, false, [];
    var i := 0;
    while i < |args|
      invariant i <= |args|
      invariant PromotionOf(std, args) == match Scan(PROMOTE_FLAGS, PromotionAdder(std), args, i, Promotion(tenant, who, all, accounts)) {
        case Err(e) => Err(e)
        case Ok(acc) => FinishPromotion(acc)
      }
    {
      var flag := args[i];
      match Read(flag) {
        case Known(TenantFlag) =>
          if i + 1 == |args| || Dashed(args[i + 1]) {
            return Err(NeedsValue(TenantFlag));
          }
          if std.uuid(args[i + 1]).None? {
            return Err(BadValue(TenantFlag));
          }
          tenant := std.uuid(args[i + 1]);
          i := i + 2;
        case Known(ByFlag) =>
          if i + 1 == |args| || Dashed(args[i + 1]) {
            return Err(NeedsValue(ByFlag));
          }
          who := Some(Trim(args[i + 1]));
          i := i + 2;
        case Known(AllFlag) =>
          all := true;
          i := i + 1;
        case Plain =>
          if std.uuid(flag).None? {
            return Err(BadWord);
          }
          accounts := accounts + [std.uuid(flag).value];
          i := i + 1;
        case _ =>
          return Err(Usage);
      }
    }
    if who.None? || who.value == "" {
      return Err(NoName);
    }
    if tenant.None? {
      return Err(Usage);
    }
    if all && accounts == [] {
      return Ok((tenant.value, who.value, All));
    }
    if !all && accounts != [] {
      return Ok((tenant.value, who.value, These(accounts)));
    }
    return Err(if all then AllAndSome else Neither);
  }

  // ------------------------------------------------------------------
  // Words read as pieces
  // ------------------------------------------------------------------

  function Print(p: Piece): seq<string> {
    match p
    case Valued(flag, value) => [Spelling(flag), value]
    case Bare(flag) => [Spelling(flag)]
    case Positional(word) => [word]
  }

  function PrintAll(pieces: seq<Piece>): seq<string> {
    if pieces == [] then [] else Print(pieces[0]) + PrintAll(pieces[1..])
  }

  // A piece the command knows, as an operator can spell it.
  predicate Spellable(known: set<Flag>, p: Piece) {
    match p
    case Valued(flag, value) => flag in known && !flag.AllFlag? && !Dashed(value)
    case Bare(flag) => flag in known && flag.AllFlag?
    case Positional(word) => !Dashed(word)
  }

  function Fold<A>(add: Adder<A>, acc: A, pieces: seq<Piece>): Result<A, Error> {
    if pieces == [] then Ok(acc)
    else match add(acc, pieces[0])
      case Err(e) => Err(e)
      case Ok(more) => Fold(add, more, pieces[1..])
  }

  lemma NextPrinted(known: set<Flag>, before: seq<string>, p: Piece, after: seq<string>)
    requires Spellable(known, p)
    ensures var args := before + Print(p) + after;
      |before| < |args| && Next(known, args, |before|) == Ok(p)
  {
    hide Spelling, Dashed, Read;
    var args := before + Print(p) + after;
    match p {
      case Valued(flag, value) =>
        ReadSpelling(flag, "");
        assert args[|before|] == Spelling(flag) && args[|before| + 1] == value;
      case Bare(flag) =>
        ReadSpelling(flag, "");
        assert args[|before|] == Spelling(flag);
      case Positional(word) =>
        ReadSpelling(AllFlag, word);
        assert args[|before|] == word;
    }
  }

  // Reading the words of some pieces is adding the pieces up.
  lemma {:induction false} ScanPrinted<A>(known: set<Flag>, add: Adder<A>, before: seq<string>, pieces: seq<Piece>, after: seq<string>, acc: A)
    requires forall p :: p in pieces ==> Spellable(known, p)
    ensures var args := before + PrintAll(pieces) + after;
      Scan(known, add, args, |before|, acc) ==
        match Fold(add, acc, pieces)
        case Err(e) => Err(e)
        case Ok(more) => Scan(known, add, args, |before| + |PrintAll(pieces)|, more)
    decreases |pieces|
  {
    hide Spellable, Next, Print;
    if pieces != [] {
      var p, rest := pieces[0], pieces[1..];
      var args := before + PrintAll(pieces) + after;
      assert args == before + Print(p) + (PrintAll(rest) + after);
      NextPrinted(known, before, p, PrintAll(rest) + after);
      PrintedWidth(p);
      match add(acc, p) {
        case Err(_) =>
        case Ok(more) =>
          ScanPrinted(known, add, before + Print(p), rest, after, more);
          assert args == (before + Print(p)) + PrintAll(rest) + after;
      }
    }
  }

  lemma PrintedWidth(p: Piece)
    ensures |Print(p)| == Width(p)
  {
  }

  // Whatever is accepted is the words of some pieces.
  lemma {:induction false} AcceptedIsPrinted<A>(known: set<Flag>, add: Adder<A>, args: seq<string>, i: nat, acc: A) returns (pieces: seq<Piece>)
    requires i <= |args| && Scan(known, add, args, i, acc).Ok?
    ensures args[i..] == PrintAll(pieces) && forall p :: p in pieces ==> Spellable(known, p)
    decreases |args| - i
  {
    hide Spelling, Dashed;
    if i == |args| {
      pieces := [];
    } else {
      var p := Next(known, args, i).value;
      NextIsSpellable(known, args, i);
      var rest := AcceptedIsPrinted(known, add, args, i + Width(p), add(acc, p).value);
      pieces := [p] + rest;
      assert pieces[1..] == rest;
      assert args[i..] == args[i..i + Width(p)] + args[i + Width(p)..];
    }
  }

  lemma NextIsSpellable(known: set<Flag>, args: seq<string>, i: nat)
    requires i < |args| && Next(known, args, i).Ok?
    ensures var p := Next(known, args, i).value;
      Spellable(known, p) && args[i..i + Width(p)] == Print(p)
  {
    ReadIs(args[i]);
    hide Spelling, Dashed, Read;
  }

  lemma ReadIs(word: string)
    ensures match Read(word)
      case Known(flag) => word == Spelling(flag)
      case Unknown => Dashed(word)
      case Plain => !Dashed(word)
  {
  }

  // A value flag with no word after it, or a flag there, fails whatever came
  // before it and whatever comes after.
  lemma MissingValueFails<A>(known: set<Flag>, add: Adder<A>, pieces: seq<Piece>, flag: Flag, after: seq<string>, acc: A)
    requires forall p :: p in pieces ==> Spellable(known, p)
    requires !flag.AllFlag? && (after == [] || (after[0] != "" && after[0][0] == '-'))
    ensures Scan(known, add, PrintAll(pieces) + [Spelling(flag)] + after, 0, acc) ==
      match Fold(add, acc, pieces)
      case Err(e) => Err(e)
      case Ok(_) => Err(if flag in known then NeedsValue(flag) else Usage)
  {
    assert after != [] ==> Dashed(after[0]);
    hide Spellable, Spelling, Dashed, Read;
    var args := PrintAll(pieces) + [Spelling(flag)] + after;
    assert args == [] + PrintAll(pieces) + ([Spelling(flag)] + after);
    ScanPrinted(known, add, [], pieces, [Spelling(flag)] + after, acc);
    ReadSpelling(flag, "");
    var i := |PrintAll(pieces)|;
    assert args[i] == Spelling(flag) && (after != [] ==> args[i + 1] == after[0]) && |args| == i + 1 + |after|;
    assert Next(known, args, i) == Err(if flag in known then NeedsValue(flag) else Usage);
  }

  // ------------------------------------------------------------------
  // What a command says, whatever the order of its pieces
  // ------------------------------------------------------------------

  // What some pieces hold, in order.
  function Select<T>(pieces: seq<Piece>, f: Piece -> Option<T>): seq<T> {
    if pieces == [] then []
    else
      var last := pieces[|pieces| - 1];
      Select(pieces[..|pieces| - 1], f) + if f(last).Some? then [f(last).value] else []
  }

  function Last<T>(items: seq<T>): Option<T> {
    if items == [] then None else Some(items[|items| - 1])
  }

  lemma {:induction false} FoldSnoc<A>(add: Adder<A>, acc: A, pieces: seq<Piece>, p: Piece)
    ensures Fold(add, acc, pieces + [p]) == match Fold(add, acc, pieces)
      case Err(e) => Err(e)
      case Ok(more) => add(more, p)
  {
    if pieces == [] {
      assert [] + [p] == [p] && [p][1..] == [];
    } else {
      assert (pieces + [p])[0] == pieces[0] && (pieces + [p])[1..] == pieces[1..] + [p];
      match add(acc, pieces[0]) {
        case Err(_) =>
        case Ok(more) => FoldSnoc(add, more, pieces[1..], p);
      }
    }
  }

  function TenantIn(std: Std): Piece -> Option<nat> {
    (p: Piece) => if p.Valued? && p.flag.TenantFlag? then std.uuid(p.value) else None
  }

  function ScopeIn(std: Std): Piece -> Option<Scope> {
    (p: Piece) =>
      if p.Valued? && p.flag.RoleFlag? && std.slug(p.value).Some? then Some(Role(std.slug(p.value).value))
      else if p.Valued? && p.flag.EmployeeFlag? && std.uuid(p.value).Some? then Some(Employee(std.uuid(p.value).value))
      else None
  }

  function FileIn(): Piece -> Option<string> {
    (p: Piece) => if p.Positional? then Some(p.word) else None
  }

  // A piece whose value is what its flag asks for.
  predicate GoodLayerPiece(std: Std, p: Piece) {
    match p
    case Valued(TenantFlag, v) => std.uuid(v).Some?
    case Valued(RoleFlag, v) => std.slug(v).Some?
    case Valued(EmployeeFlag, v) => std.uuid(v).Some?
    case Positional(_) => true
    case _ => false
  }

  predicate AllGood(good: Piece -> bool, pieces: seq<Piece>) {
    forall p :: p in pieces ==> good(p)
  }

  lemma GoodSnoc(good: Piece -> bool, pieces: seq<Piece>, p: Piece)
    ensures AllGood(good, pieces + [p]) <==> AllGood(good, pieces) && good(p)
  {
    assert p in pieces + [p];
    assert forall q :: q in pieces ==> q in pieces + [p];
  }

  lemma SelectSnoc<T>(pieces: seq<Piece>, p: Piece, f: Piece -> Option<T>)
    ensures Select(pieces + [p], f) == Select(pieces, f) + if f(p).Some? then [f(p).value] else []
  {
    assert (pieces + [p])[..|pieces|] == pieces;
  }

  function GoodLayer(std: Std): Piece -> bool {
    (p: Piece) => GoodLayerPiece(std, p)
  }

  // What the pieces of a layer command hold.
  ghost predicate LayerAdds(std: Std, pieces: seq<Piece>, acc: Layer) {
    var scopes, files := Select(pieces, ScopeIn(std)), Select(pieces, FileIn());
    && AllGood(GoodLayer(std), pieces) && |scopes| <= 1 && |files| <= 1
    && acc == Layer(Last(Select(pieces, TenantIn(std))), Last(scopes), Last(files))
  }

  ghost predicate LayerFails(std: Std, pieces: seq<Piece>) {
    !AllGood(GoodLayer(std), pieces) || |Select(pieces, ScopeIn(std))| > 1 || |Select(pieces, FileIn())| > 1
  }

  lemma LayerStep(std: Std, front: seq<Piece>, last: Piece, acc: Layer)
    requires LayerAdds(std, front, acc)
    ensures match AddLayer(std, acc, last)
      case Ok(more) => LayerAdds(std, front + [last], more)
      case Err(_) => LayerFails(std, front + [last])
  {
    hide Select, AllGood;
    GoodSnoc(GoodLayer(std), front, last);
    SelectSnoc(front, last, TenantIn(std));
    SelectSnoc(front, last, ScopeIn(std));
    SelectSnoc(front, last, FileIn());
  }

  lemma LayerFailsOn(std: Std, front: seq<Piece>, last: Piece)
    requires LayerFails(std, front)
    ensures LayerFails(std, front + [last])
  {
    hide Select, AllGood;
    GoodSnoc(GoodLayer(std), front, last);
    SelectSnoc(front, last, ScopeIn(std));
    SelectSnoc(front, last, FileIn());
  }

  lemma NoPieces(std: Std)
    ensures LayerAdds(std, [], Layer(None, None, None))
    ensures PromotionAdds(std, [], Promotion(None, None, false, []))
  {
  }

  // The pieces add up exactly when each is good and there are not two scopes or
  // two files; what they add up to is the last tenant, the scope and the file.
  lemma {:induction false} LayerFold(std: Std, pieces: seq<Piece>)
    ensures match Fold(LayerAdder(std), Layer(None, None, None), pieces)
      case Ok(acc) => LayerAdds(std, pieces, acc)
      case Err(_) => LayerFails(std, pieces)
  {
    hide LayerAdds, LayerFails, AddLayer, Fold;
    NoPieces(std);
    if pieces == [] {
      FoldNothing(LayerAdder(std), Layer(None, None, None));
    } else {
      var front, last := pieces[..|pieces| - 1], pieces[|pieces| - 1];
      assert pieces == front + [last];
      LayerFold(std, front);
      FoldSnoc(LayerAdder(std), Layer(None, None, None), front, last);
      match Fold(LayerAdder(std), Layer(None, None, None), front) {
        case Err(_) => LayerFailsOn(std, front, last);
        case Ok(acc) => LayerStep(std, front, last, acc);
      }
    }
  }

  lemma FoldNothing<A>(add: Adder<A>, acc: A)
    ensures Fold(add, acc, []) == Ok(acc)
  {
  }

  // ------------------------------------------------------------------
  // The same for a promotion
  // ------------------------------------------------------------------

  function NameIn(): Piece -> Option<string> {
    (p: Piece) => if p.Valued? && p.flag.ByFlag? then Some(Trim(p.value)) else None
  }

  function AllIn(): Piece -> Option<bool> {
    (p: Piece) => if p.Bare? && p.flag.AllFlag? then Some(true) else None
  }

  function AccountIn(std: Std): Piece -> Option<nat> {
    (p: Piece) => if p.Positional? then std.uuid(p.word) else None
  }

  predicate GoodPromotionPiece(std: Std, p: Piece) {
    match p
    case Valued(TenantFlag, v) => std.uuid(v).Some?
    case Valued(ByFlag, _) => true
    case Bare(AllFlag) => true
    case Positional(word) => std.uuid(word).Some?
    case _ => false
  }

  function GoodPromotion(std: Std): Piece -> bool {
    (p: Piece) => GoodPromotionPiece(std, p)
  }

  ghost predicate PromotionAdds(std: Std, pieces: seq<Piece>, acc: Promotion) {
    && AllGood(GoodPromotion(std), pieces)
    && acc == Promotion(Last(Select(pieces, TenantIn(std))), Last(Select(pieces, NameIn())), Select(pieces, AllIn()) != [], Select(pieces, AccountIn(std)))
  }

  lemma PromotionStep(std: Std, front: seq<Piece>, last: Piece, acc: Promotion)
    requires PromotionAdds(std, front, acc)
    ensures match AddPromotion(std, acc, last)
      case Ok(more) => PromotionAdds(std, front + [last], more)
      case Err(_) => !AllGood(GoodPromotion(std), front + [last])
  {
    hide Select, AllGood, Trim;
    GoodSnoc(GoodPromotion(std), front, last);
    SelectSnoc(front, last, TenantIn(std));
    SelectSnoc(front, last, NameIn());
    SelectSnoc(front, last, AllIn());
    SelectSnoc(front, last, AccountIn(std));
  }

  lemma {:induction false} PromotionFold(std: Std, pieces: seq<Piece>)
    ensures match Fold(PromotionAdder(std), Promotion(None, None, false, []), pieces)
      case Ok(acc) => PromotionAdds(std, pieces, acc)
      case Err(_) => !AllGood(GoodPromotion(std), pieces)
  {
    hide PromotionAdds, AllGood, AddPromotion, Fold;
    NoPieces(std);
    if pieces == [] {
      FoldNothing(PromotionAdder(std), Promotion(None, None, false, []));
    } else {
      var front, last := pieces[..|pieces| - 1], pieces[|pieces| - 1];
      assert pieces == front + [last];
      PromotionFold(std, front);
      FoldSnoc(PromotionAdder(std), Promotion(None, None, false, []), front, last);
      match Fold(PromotionAdder(std), Promotion(None, None, false, []), front) {
        case Err(_) => GoodSnoc(GoodPromotion(std), front, last);
        case Ok(acc) => PromotionStep(std, front, last, acc);
      }
    }
  }

  // ------------------------------------------------------------------
  // Which command lines say what
  // ------------------------------------------------------------------

  ghost predicate AllSpellable(known: set<Flag>, pieces: seq<Piece>) {
    forall p :: p in pieces ==> Spellable(known, p)
  }

  lemma ScanIsFold<A>(known: set<Flag>, add: Adder<A>, pieces: seq<Piece>, acc: A)
    requires AllSpellable(known, pieces)
    ensures Scan(known, add, PrintAll(pieces), 0, acc) == Fold(add, acc, pieces)
  {
    hide Fold, Next, Spellable;
    assert PrintAll(pieces) == [] + PrintAll(pieces) + [];
    ScanPrinted(known, add, [], pieces, [], acc);
  }

  // A layer command is accepted exactly when every value is good, there is a
  // tenant, one file and at most one scope, and it says just that.
  lemma LayerMeans(std: Std, pieces: seq<Piece>)
    requires AllSpellable(LAYER_FLAGS, pieces)
    ensures var tenants, scopes, files := Select(pieces, TenantIn(std)), Select(pieces, ScopeIn(std)), Select(pieces, FileIn());
      match LayerOf(std, PrintAll(pieces))
      case Ok(said) =>
        && AllGood(GoodLayer(std), pieces) && tenants != [] && |scopes| <= 1 && |files| == 1
        && said == (Last(tenants).value, if scopes == [] then WholeTenant else scopes[0], files[0])
      case Err(e) =>
        && (!AllGood(GoodLayer(std), pieces) || tenants == [] || |scopes| > 1 || |files| != 1)
        && (AllGood(GoodLayer(std), pieces) && |scopes| <= 1 && |files| <= 1 ==> e == if tenants == [] then Usage else NoFile)
  {
    hide Scan, Fold, Select, AllGood, AllSpellable, PrintAll;
    ScanIsFold(LAYER_FLAGS, LayerAdder(std), pieces, Layer(None, None, None));
    LayerFold(std, pieces);
  }

  // A promotion is accepted exactly when every value is good, there is a
  // tenant and a name that is not blank, and either `--all` or accounts.
  lemma PromotionMeans(std: Std, pieces: seq<Piece>)
    requires AllSpellable(PROMOTE_FLAGS, pieces)
    ensures var tenants, names := Select(pieces, TenantIn(std)), Select(pieces, NameIn());
      var all, accounts := Select(pieces, AllIn()) != [], Select(pieces, AccountIn(std));
      match PromotionOf(std, PrintAll(pieces))
      case Ok(said) =>
        && AllGood(GoodPromotion(std), pieces) && tenants != [] && names != [] && Last(names) != Some("") && (all <==> accounts == [])
        && said == (Last(tenants).value, Last(names).value, if all then All else These(accounts))
      case Err(e) =>
        if !AllGood(GoodPromotion(std), pieces) then true
        else if names == [] || Last(names) == Some("") then e == NoName
        else if tenants == [] then e == Usage
        else if all then accounts != [] && e == AllAndSome
        else accounts == [] && e == Neither
  {
    hide Scan, Fold, Select, AllGood, AllSpellable, PrintAll;
    ScanIsFold(PROMOTE_FLAGS, PromotionAdder(std), pieces, Promotion(None, None, false, []));
    PromotionFold(std, pieces);
  }

  // A word that is no flag.
  predicate IsValue(word: string) {
    word == "" || word[0] != '-'
  }

  // The commands as they are typed.
  lemma LayerTyped(std: Std, tenant: string, role: string, file: string)
    requires IsValue(tenant) && IsValue(role) && IsValue(file) && std.uuid(tenant).Some?
    ensures LayerOf(std, ["--tenant", tenant, "--role", role, file]) ==
      if std.slug(role).Some? then Ok((std.uuid(tenant).value, Role(std.slug(role).value), file)) else Err(BadValue(RoleFlag))
    ensures LayerOf(std, [file, "--employee", role, "--tenant", tenant]) ==
      if std.uuid(role).Some? then Ok((std.uuid(tenant).value, Employee(std.uuid(role).value), file)) else Err(BadValue(EmployeeFlag))
  {
    var byRole := [Valued(TenantFlag, tenant), Valued(RoleFlag, role), Positional(file)];
    var byEmployee := [Positional(file), Valued(EmployeeFlag, role), Valued(TenantFlag, tenant)];
    PrintsThree(byRole[0], byRole[1], byRole[2]);
    PrintsThree(byEmployee[0], byEmployee[1], byEmployee[2]);
    assert PrintAll(byRole) == ["--tenant", tenant, "--role", role, file];
    assert PrintAll(byEmployee) == [file, "--employee", role, "--tenant", tenant];
    ScanIsFold(LAYER_FLAGS, LayerAdder(std), byRole, Layer(None, None, None));
    ScanIsFold(LAYER_FLAGS, LayerAdder(std), byEmployee, Layer(None, None, None));
    hide Scan, Select, AllGood, AllSpellable, PrintAll, Spelling, Dashed;
    FoldsThree(LayerAdder(std), Layer(None, None, None), byRole[0], byRole[1], byRole[2]);
    FoldsThree(LayerAdder(std), Layer(None, None, None), byEmployee[0], byEmployee[1], byEmployee[2]);
  }

  lemma PromotionTyped(std: Std, tenant: string, name: string, account: string)
    requires IsValue(tenant) && IsValue(name) && IsValue(account) && std.uuid(tenant).Some? && Trim(name) != ""
    ensures PromotionOf(std, ["--tenant", tenant, "--by", name, "--all"]) == Ok((std.uuid(tenant).value, Trim(name), All))
    ensures PromotionOf(std, ["--tenant", tenant, "--by", name, account]) ==
      if std.uuid(account).Some? then Ok((std.uuid(tenant).value, Trim(name), These([std.uuid(account).value]))) else Err(BadWord)
  {
    assert std.uuid(account).Some? ==> [] + [std.uuid(account).value] == [std.uuid(account).value];
    var all := [Valued(TenantFlag, tenant), Valued(ByFlag, name), Bare(AllFlag)];
    var one := [Valued(TenantFlag, tenant), Valued(ByFlag, name), Positional(account)];
    PrintsThree(all[0], all[1], all[2]);
    PrintsThree(one[0], one[1], one[2]);
    assert PrintAll(all) == ["--tenant", tenant, "--by", name, "--all"];
    assert PrintAll(one) == ["--tenant", tenant, "--by", name, account];
    ScanIsFold(PROMOTE_FLAGS, PromotionAdder(std), all, Promotion(None, None, false, []));
    ScanIsFold(PROMOTE_FLAGS, PromotionAdder(std), one, Promotion(None, None, false, []));
    hide Scan, Select, AllGood, AllSpellable, PrintAll, Spelling, Dashed, Trim;
    FoldsThree(PromotionAdder(std), Promotion(None, None, false, []), all[0], all[1], all[2]);
    FoldsThree(PromotionAdder(std), Promotion(None, None, false, []), one[0], one[1], one[2]);
  }

  lemma PrintsThree(a: Piece, b: Piece, c: Piece)
    ensures PrintAll([a, b, c]) == Print(a) + Print(b) + Print(c)
  {
    hide Print;
    assert [a, b, c][1..] == [b, c] && [b, c][1..] == [c] && [c][1..] == [];
    assert PrintAll([c]) == Print(c) && PrintAll([b, c]) == Print(b) + Print(c);
  }

  lemma FoldsThree<A>(add: Adder<A>, acc: A, a: Piece, b: Piece, c: Piece)
    ensures Fold(add, acc, [a, b, c]) == match add(acc, a)
      case Err(e) => Err(e)
      case Ok(one) =>
        match add(one, b)
        case Err(e) => Err(e)
        case Ok(two) => add(two, c)
  {
    hide Fold;
    assert [a, b, c] == [a] + [b, c] && [b, c] == [b] + [c];
    FoldsOne(add, acc, a, [b, c]);
    match add(acc, a) {
      case Err(_) =>
      case Ok(one) =>
        FoldsOne(add, one, b, [c]);
        match add(one, b) {
          case Err(_) =>
          case Ok(two) =>
            assert [c] == [c] + [];
            FoldsOne(add, two, c, []);
            if add(two, c).Ok? {
              FoldNothing(add, add(two, c).value);
            }
        }
    }
  }

  lemma FoldsOne<A>(add: Adder<A>, acc: A, p: Piece, rest: seq<Piece>)
    ensures add(acc, p).Err? ==> Fold(add, acc, [p] + rest) == Err(add(acc, p).error)
    ensures add(acc, p).Ok? ==> Fold(add, acc, [p] + rest) == Fold(add, add(acc, p).value, rest)
  {
    assert ([p] + rest)[1..] == rest;
  }

  // ------------------------------------------------------------------
  // Order
  // ------------------------------------------------------------------

  lemma {:induction false} SelectConcat<T>(a: seq<Piece>, b: seq<Piece>, f: Piece -> Option<T>)
    ensures Select(a + b, f) == Select(a, f) + Select(b, f)
    decreases |b|
  {
    hide Select;
    if b == [] {
      assert a + b == a;
      SelectNothing(f);
    } else {
      var front, last := b[..|b| - 1], b[|b| - 1];
      assert a + b == (a + front) + [last] && b == front + [last];
      SelectSnoc(a + front, last, f);
      SelectSnoc(front, last, f);
      SelectConcat(a, front, f);
    }
  }

  lemma SelectNothing<T>(f: Piece -> Option<T>)
    ensures Select([], f) == []
  {
  }

  lemma TakenOut(front: seq<Piece>, last: Piece, a: seq<Piece>, b: seq<Piece>)
    requires multiset(front + [last]) == multiset(a + [last] + b)
    ensures multiset(front) == multiset(a + b)
  {
    assert multiset(front) == multiset(front + [last]) - multiset{last};
    assert multiset(a + b) == multiset(a + [last] + b) - multiset{last};
  }

  // The same pieces in another order hold the same values.
  lemma {:induction false} SelectPermuted<T>(p: seq<Piece>, q: seq<Piece>, f: Piece -> Option<T>)
    requires multiset(p) == multiset(q)
    ensures multiset(Select(p, f)) == multiset(Select(q, f))
    decreases |p|
  {
    hide Select;
    if p == [] {
      assert |multiset(q)| == |q|;
    } else {
      var front, last := p[..|p| - 1], p[|p| - 1];
      assert p == front + [last];
      assert last in multiset(q);
      var k :| 0 <= k < |q| && q[k] == last;
      assert q == q[..k] + [last] + q[k + 1..];
      TakenOut(front, last, q[..k], q[k + 1..]);
      SelectPermuted(front, q[..k] + q[k + 1..], f);
      SelectSnoc(front, last, f);
      SelectSnoc(q[..k], last, f);
      SelectConcat(q[..k] + [last], q[k + 1..], f);
      SelectConcat(q[..k], q[k + 1..], f);
    }
  }

  // One value, however often.
  predicate OneValue<T(==)>(items: seq<T>) {
    forall i, j :: 0 <= i < |items| && 0 <= j < |items| ==> items[i] == items[j]
  }

  lemma OneValuePermuted<T>(a: seq<T>, b: seq<T>)
    requires multiset(a) == multiset(b)
    ensures |a| == |b|
    ensures OneValue(a) ==> Last(a) == Last(b)
  {
    assert |multiset(a)| == |a| && |multiset(b)| == |b|;
    if b != [] {
      assert b[|b| - 1] in multiset(a);
    }
  }

  lemma GoodPermuted(good: Piece -> bool, p: seq<Piece>, q: seq<Piece>)
    requires multiset(p) == multiset(q)
    ensures AllGood(good, p) <==> AllGood(good, q)
  {
    forall x
      ensures x in p <==> x in q
    {
      assert x in p <==> x in multiset(p);
      assert x in q <==> x in multiset(q);
    }
  }

  // The pieces of a layer command in another order are accepted alike, and say
  // the same exactly when the last `--tenant` does.
  lemma LayerReordered(std: Std, p: seq<Piece>, q: seq<Piece>)
    requires AllSpellable(LAYER_FLAGS, p) && AllSpellable(LAYER_FLAGS, q) && multiset(p) == multiset(q)
    ensures var first, second := LayerOf(std, PrintAll(p)), LayerOf(std, PrintAll(q));
      && (first.Ok? <==> second.Ok?)
      && (first.Ok? ==> (first == second <==> Last(Select(p, TenantIn(std))) == Last(Select(q, TenantIn(std)))))
  {
    hide Select, AllGood, AllSpellable, LayerOf, PrintAll, OneValue;
    LayerMeans(std, p);
    LayerMeans(std, q);
    GoodPermuted(GoodLayer(std), p, q);
    SelectPermuted(p, q, TenantIn(std));
    SelectPermuted(p, q, ScopeIn(std));
    SelectPermuted(p, q, FileIn());
    OneValuePermuted(Select(p, TenantIn(std)), Select(q, TenantIn(std)));
    SinglesPermuted(Select(p, ScopeIn(std)), Select(q, ScopeIn(std)));
    SinglesPermuted(Select(p, FileIn()), Select(q, FileIn()));
  }

  lemma SinglesPermuted<T>(a: seq<T>, b: seq<T>)
    requires multiset(a) == multiset(b)
    ensures |a| == |b|
    ensures |a| <= 1 ==> a == b
  {
    assert |multiset(a)| == |a| && |multiset(b)| == |b|;
    if |a| == 1 && |b| == 1 {
      assert a[0] in multiset(b);
    }
  }

  lemma ToTheEnd(p: seq<Piece>, i: nat)
    requires i < |p|
    ensures multiset(p[..i] + p[i + 1..] + [p[i]]) == multiset(p)
    ensures forall x :: x in p[..i] + p[i + 1..] + [p[i]] ==> x in p
  {
    assert p == p[..i] + [p[i]] + p[i + 1..];
  }

  // Moving a `--tenant` to the end makes it the one the command is for.
  lemma LastTenantWins(std: Std, p: seq<Piece>, i: nat)
    requires AllSpellable(LAYER_FLAGS, p) && LayerOf(std, PrintAll(p)).Ok?
    requires i < |p| && TenantIn(std)(p[i]).Some?
    ensures var moved := p[..i] + p[i + 1..] + [p[i]];
      && multiset(moved) == multiset(p) && AllSpellable(LAYER_FLAGS, moved)
      && LayerOf(std, PrintAll(moved)).Ok?
      && LayerOf(std, PrintAll(moved)).value.0 == TenantIn(std)(p[i]).value
  {
    hide Select, AllGood, LayerOf, PrintAll, Spellable;
    var rest := p[..i] + p[i + 1..];
    ToTheEnd(p, i);
    LayerReordered(std, p, rest + [p[i]]);
    LayerMeans(std, rest + [p[i]]);
    SelectSnoc(rest, p[i], TenantIn(std));
  }

  lemma {:induction false} SelectFrom<T>(pieces: seq<Piece>, f: Piece -> Option<T>, value: T) returns (i: nat)
    requires value in Select(pieces, f)
    ensures i < |pieces| && f(pieces[i]) == Some(value)
  {
    var front, last := pieces[..|pieces| - 1], pieces[|pieces| - 1];
    if f(last) == Some(value) {
      i := |pieces| - 1;
    } else {
      i := SelectFrom(front, f, value);
    }
  }

  // An accepted layer command says the same in every order exactly when all its
  // `--tenant`s name one tenant.
  lemma LayerInAnyOrder(std: Std, p: seq<Piece>)
    requires AllSpellable(LAYER_FLAGS, p) && LayerOf(std, PrintAll(p)).Ok?
    ensures OneValue(Select(p, TenantIn(std))) <==>
      forall q :: AllSpellable(LAYER_FLAGS, q) && multiset(q) == multiset(p) ==> LayerOf(std, PrintAll(q)) == LayerOf(std, PrintAll(p))
  {
    hide Select, AllSpellable, LayerOf, PrintAll;
    var tenants := Select(p, TenantIn(std));
    if OneValue(tenants) {
      forall q | AllSpellable(LAYER_FLAGS, q) && multiset(q) == multiset(p)
        ensures LayerOf(std, PrintAll(q)) == LayerOf(std, PrintAll(p))
      {
        LayerReordered(std, p, q);
        SelectPermuted(p, q, TenantIn(std));
        OneValuePermuted(tenants, Select(q, TenantIn(std)));
      }
    } else {
      var other := OtherThanLast(tenants);
      var i := SelectFrom(p, TenantIn(std), other);
      LastTenantWins(std, p, i);
      LayerMeans(std, p);
      assert LayerOf(std, PrintAll(p[..i] + p[i + 1..] + [p[i]])) != LayerOf(std, PrintAll(p));
    }
  }

  lemma OtherThanLast<T>(items: seq<T>) returns (other: T)
    requires !OneValue(items)
    ensures items != [] && other in items && Last(items) != Some(other)
  {
    var i, j :| 0 <= i < |items| && 0 <= j < |items| && items[i] != items[j];
    other := if items[i] == items[|items| - 1] then items[j] else items[i];
  }

  // A promotion accepted in one order is accepted in another, and says the
  // same, exactly when the last `--tenant`, the last `--by` and the order of the
  // accounts are the same.
  lemma PromotionReordered(std: Std, p: seq<Piece>, q: seq<Piece>)
    requires AllSpellable(PROMOTE_FLAGS, p) && AllSpellable(PROMOTE_FLAGS, q) && multiset(p) == multiset(q)
    requires PromotionOf(std, PrintAll(p)).Ok?
    ensures PromotionOf(std, PrintAll(q)) == PromotionOf(std, PrintAll(p)) <==>
      && Last(Select(p, TenantIn(std))) == Last(Select(q, TenantIn(std)))
      && Last(Select(p, NameIn())) == Last(Select(q, NameIn()))
      && Select(p, AccountIn(std)) == Select(q, AccountIn(std))
  {
    hide Select, AllGood, AllSpellable, PromotionOf, PrintAll, Trim, OneValue;
    PromotionMeans(std, p);
    PromotionMeans(std, q);
    GoodPermuted(GoodPromotion(std), p, q);
    SelectPermuted(p, q, TenantIn(std));
    SelectPermuted(p, q, NameIn());
    SelectPermuted(p, q, AllIn());
    SelectPermuted(p, q, AccountIn(std));
    OneValuePermuted(Select(p, TenantIn(std)), Select(q, TenantIn(std)));
    OneValuePermuted(Select(p, NameIn()), Select(q, NameIn()));
    OneValuePermuted(Select(p, AllIn()), Select(q, AllIn()));
    OneValuePermuted(Select(p, AccountIn(std)), Select(q, AccountIn(std)));
  }

  // Moving a `--tenant` or a `--by` to the end makes it the one the promotion is
  // for or by; a blank name moved there refuses it.
  lemma LastOfPromotionWins(std: Std, p: seq<Piece>, i: nat)
    requires AllSpellable(PROMOTE_FLAGS, p) && PromotionOf(std, PrintAll(p)).Ok?
    requires i < |p| && p[i].Valued?
    ensures var said, moved := PromotionOf(std, PrintAll(p)).value, PromotionOf(std, PrintAll(p[..i] + p[i + 1..] + [p[i]]));
      && (TenantIn(std)(p[i]).Some? ==> moved == Ok((TenantIn(std)(p[i]).value, said.1, said.2)))
      && (NameIn()(p[i]).Some? ==> if NameIn()(p[i]).value == "" then moved.Err? else moved == Ok((said.0, NameIn()(p[i]).value, said.2)))
  {
    hide Select, AllGood, AllSpellable, PromotionOf, PrintAll, Trim, Last;
    var moved := p[..i] + p[i + 1..] + [p[i]];
    ToTheEnd(p, i);
    StaySpellable(PROMOTE_FLAGS, p, moved);
    PromotionMeans(std, p);
    PromotionMeans(std, moved);
    GoodPermuted(GoodPromotion(std), p, moved);
    MovedLast(p, i, TenantIn(std));
    MovedLast(p, i, NameIn());
    MovedLast(p, i, AllIn());
    MovedLast(p, i, AccountIn(std));
    LastOfNone<nat>();
  }

  lemma LastOfNone<T>()
    ensures Last<T>([]) == None
  {
  }

  lemma StaySpellable(known: set<Flag>, p: seq<Piece>, q: seq<Piece>)
    requires AllSpellable(known, p) && forall x :: x in q ==> x in p
    ensures AllSpellable(known, q)
  {
  }

  // What moving one piece to the end does to what the pieces hold.
  lemma MovedLast<T>(p: seq<Piece>, i: nat, f: Piece -> Option<T>)
    requires i < |p|
    ensures var held, moved := Select(p, f), Select(p[..i] + p[i + 1..] + [p[i]], f);
      if f(p[i]).None? then moved == held else held != [] && moved != [] && Last(moved) == f(p[i])
  {
    hide Select;
    assert p == p[..i] + [p[i]] + p[i + 1..];
    Moved(p[..i], p[i + 1..], p[i], f);
  }

  lemma Moved<T>(a: seq<Piece>, b: seq<Piece>, x: Piece, f: Piece -> Option<T>)
    ensures Select(a + b + [x], f) == Select(a, f) + Select(b, f) + if f(x).Some? then [f(x).value] else []
    ensures Select(a + [x] + b, f) == Select(a, f) + (if f(x).Some? then [f(x).value] else []) + Select(b, f)
  {
    hide Select;
    SelectSnoc(a + b, x, f);
    SelectConcat(a, b, f);
    SelectSnoc(a, x, f);
    SelectConcat(a + [x], b, f);
  }

  // An accepted promotion says the same in every order that keeps its accounts
  // in theirs exactly when all its `--tenant`s, and all its `--by`s, are one.
  lemma PromotionInAnyOrder(std: Std, p: seq<Piece>)
    requires AllSpellable(PROMOTE_FLAGS, p) && PromotionOf(std, PrintAll(p)).Ok?
    ensures OneValue(Select(p, TenantIn(std))) && OneValue(Select(p, NameIn())) <==>
      forall q :: AllSpellable(PROMOTE_FLAGS, q) && multiset(q) == multiset(p) && Select(q, AccountIn(std)) == Select(p, AccountIn(std))
        ==> PromotionOf(std, PrintAll(q)) == PromotionOf(std, PrintAll(p))
  {
    hide Select, AllSpellable, PromotionOf, PrintAll, Trim;
    var tenants, names := Select(p, TenantIn(std)), Select(p, NameIn());
    if OneValue(tenants) && OneValue(names) {
      forall q | AllSpellable(PROMOTE_FLAGS, q) && multiset(q) == multiset(p) && Select(q, AccountIn(std)) == Select(p, AccountIn(std))
        ensures PromotionOf(std, PrintAll(q)) == PromotionOf(std, PrintAll(p))
      {
        PromotionReordered(std, p, q);
        SelectPermuted(p, q, TenantIn(std));
        SelectPermuted(p, q, NameIn());
        OneValuePermuted(tenants, Select(q, TenantIn(std)));
        OneValuePermuted(names, Select(q, NameIn()));
      }
    } else if !OneValue(tenants) {
      var other := OtherThanLast(tenants);
      var i := SelectFrom(p, TenantIn(std), other);
      AnotherOrderDiffers(std, p, i);
    } else {
      var other := OtherThanLast(names);
      var i := SelectFrom(p, NameIn(), other);
      AnotherOrderDiffers(std, p, i);
    }
  }

  lemma AnotherOrderDiffers(std: Std, p: seq<Piece>, i: nat)
    requires AllSpellable(PROMOTE_FLAGS, p) && PromotionOf(std, PrintAll(p)).Ok? && i < |p|
    requires
      || (TenantIn(std)(p[i]).Some? && TenantIn(std)(p[i]) != Last(Select(p, TenantIn(std))))
      || (NameIn()(p[i]).Some? && NameIn()(p[i]) != Last(Select(p, NameIn())))
    ensures var moved := p[..i] + p[i + 1..] + [p[i]];
      && AllSpellable(PROMOTE_FLAGS, moved) && multiset(moved) == multiset(p)
      && Select(moved, AccountIn(std)) == Select(p, AccountIn(std))
      && PromotionOf(std, PrintAll(moved)) != PromotionOf(std, PrintAll(p))
  {
    hide Select, PromotionOf, PrintAll, Trim, Spellable;
    ToTheEnd(p, i);
    PromotionMeans(std, p);
    LastOfPromotionWins(std, p, i);
    assert p == p[..i] + [p[i]] + p[i + 1..];
    Moved(p[..i], p[i + 1..], p[i], AccountIn(std));
  }
}
