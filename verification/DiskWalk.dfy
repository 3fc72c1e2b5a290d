/**
 * One accounting walk over the campaign's own files: an explicit stack of directories,
 * six running totals, and closed limits, against a recursive fold over the tree.
 */
module DiskWalk {
  import opened Prelude

  const MAX_DEPTH := 16
  const MAX_DIRECTORIES := 1024
  const MAX_ENTRIES := 8192
  const TOTAL_LIMIT: int := 0x1_0000_0000_0000_0000
  const BLOCK_LIMIT: int := 0x80_0000_0000_0000

  /** `ok` is the yes or no of the ownership, link and type checks; `Vanished` was gone when examined. */
  datatype Entry =
    | Vanished(name: string)
    | File(name: string, ok: bool, size: nat, blocks: nat)
    | Directory(name: string, ok: bool, children: seq<Entry>)

  datatype Category = Database | Journal | Backup | Derived | Control

  /** Bytes by category; a category without an entry has none. */
  type Totals = map<Category, nat>

  const ZERO: Totals := map[]

  function Of(t: Totals, c: Category): nat {
    if c in t then t[c] else 0
  }

  function Charged(t: Totals, c: Category, n: nat): Totals {
    t[c := Of(t, c) + n]
  }

  function Plus(t: Totals, u: Totals): (sum: Totals)
    ensures forall c: Category :: Of(sum, c) == Of(t, c) + Of(u, c)
  {
    map c | c in t.Keys + u.Keys :: Of(t, c) + Of(u, c)
  }

  function Whole(t: Totals): nat {
    Of(t, Database) + Of(t, Journal) + Of(t, Backup) + Of(t, Derived) + Of(t, Control)
  }

  predicate Bounded(t: Totals) {
    && Of(t, Database) < TOTAL_LIMIT && Of(t, Journal) < TOTAL_LIMIT && Of(t, Backup) < TOTAL_LIMIT
    && Of(t, Derived) < TOTAL_LIMIT && Of(t, Control) < TOTAL_LIMIT
  }

  // --- one file ------------------------------------------------------------

  predicate FileOk(ok: bool, size: nat, blocks: nat) {
    ok && size < TOTAL_LIMIT && blocks < BLOCK_LIMIT
  }

  function FileBytes(size: nat, blocks: nat): nat {
    Max(size, blocks * 512)
  }

  predicate InArchive(name: string, depth: nat) {
    depth == 0 && name == "archive"
  }

  /** The first path segment decides; deeper entries inherit. */
  function Inherited(name: string, depth: nat, category: Category): Category {
    if depth > 0 then category
    else if name == "backups" || "retained-pre-restore-" <= name then Backup
    else if name == "projections" then Derived
    else if name == "data" then Database
    else Control
  }

  predicate StartsAt(name: string, part: string, i: nat)
    requires i <= |name|
  {
    part <= name[i..]
  }

  predicate Mentions(name: string, part: string) {
    exists i :: 0 <= i <= |name| && StartsAt(name, part, i)
  }

  function FileCategory(name: string, depth: nat, category: Category): Category {
    var selected := Inherited(name, depth, category);
    if selected == Database && Mentions(name, ".riffjournal") then Journal else selected
  }

  // --- accounts ------------------------------------------------------------

  /** Bytes by category, entries listed, directories entered, and whether all of it was sound. */
  datatype Account = Account(totals: Totals, entries: nat, directories: nat, sound: bool)

  const NOTHING := Account(ZERO, 0, 0, true)

  function Join(a: Account, b: Account): Account {
    Account(Plus(a.totals, b.totals), a.entries + b.entries, a.directories + b.directories, a.sound && b.sound)
  }

  predicate Within(a: Account) {
    a.sound && a.directories <= MAX_DIRECTORIES && a.entries <= MAX_ENTRIES && Bounded(a.totals)
  }

  /** What an entry costs by itself. */
  function Own(e: Entry, depth: nat, category: Category): Account {
    match e
    case Vanished(_) => Account(ZERO, 1, 0, true)
    case File(name, ok, size, blocks) =>
      if InArchive(name, depth) then Account(ZERO, 1, 0, false)
      else Account(Charged(ZERO, FileCategory(name, depth, category), FileBytes(size, blocks)), 1, 0,
                   FileOk(ok, size, blocks))
    case Directory(name, ok, _) => Account(ZERO, 1, 0, InArchive(name, depth) || ok)
  }

  // --- the recursive reference ---------------------------------------------

  function Entering(depth: nat): Account {
    Account(ZERO, 0, 1, depth <= MAX_DEPTH)
  }

  function Cost(e: Entry, depth: nat, category: Category): Account
    decreases e
  {
    if e.Directory? && !InArchive(e.name, depth)
    then Join(Own(e, depth, category), Join(Entering(depth + 1),
                                            CostAll(e.children, depth + 1, Inherited(e.name, depth, category))))
    else Own(e, depth, category)
  }

  function CostAll(es: seq<Entry>, depth: nat, category: Category): Account
    decreases es
  {
    if |es| == 0 then NOTHING else Join(Cost(es[0], depth, category), CostAll(es[1..], depth, category))
  }

  /** The account of the whole campaign directory. */
  function Total(root: seq<Entry>): Account {
    var below := CostAll(root, 0, Control);
    below.(directories := below.directories + 1)
  }

  // --- what the account means ----------------------------------------------

  /** An entry the walk lists, and its path from the campaign directory. */
  datatype Item = Item(path: seq<string>, entry: Entry)

  ghost predicate Archive(path: seq<string>) {
    |path| == 1 && path[0] == "archive"
  }

  /** Everything the walk lists from an entry on: all below it, but nothing inside the archive directory. */
  ghost function ListedAt(e: Entry, path: seq<string>): seq<Item>
    decreases e
  {
    var here := path + [e.name];
    [Item(here, e)] + if e.Directory? && !Archive(here) then Listed(e.children, here) else []
  }

  ghost function Listed(es: seq<Entry>, path: seq<string>): seq<Item>
    decreases es
  {
    if |es| == 0 then [] else ListedAt(es[0], path) + Listed(es[1..], path)
  }

  /** What the first segment of a path stands for. */
  function TopCategory(top: string): Category {
    if top == "backups" || "retained-pre-restore-" <= top then Backup
    else if top == "projections" then Derived
    else if top == "data" then Database
    else Control
  }

  /**
   * A file's category from its whole path: its first segment, and its own name for journals
   * under the data directory.
   */
  function PathCategory(path: seq<string>): Category
    requires |path| > 0
  {
    var top := TopCategory(path[0]);
    if top == Database && Mentions(path[|path| - 1], ".riffjournal") then Journal else top
  }

  /** A listed entry, the bytes it is charged with and the category they go to. */
  datatype Share = Share(item: Item, category: Category, bytes: nat)

  /** A file costs its size or its whole blocks, whichever is more; nothing else costs anything. */
  ghost predicate Fair(s: Share) {
    if s.item.entry.File? && !Archive(s.item.path)
    then
      var size, blocks := s.item.entry.size, s.item.entry.blocks;
      s.bytes >= size && s.bytes >= 512 * blocks && (s.bytes == size || s.bytes == 512 * blocks)
    else s.bytes == 0
  }

  ghost predicate ByPath(s: Share) {
    |s.item.path| > 0 && s.category == PathCategory(s.item.path)
  }

  /** The shares are those of exactly these items, in order. */
  ghost predicate SharesOf(items: seq<Item>, shares: seq<Share>) {
    && |shares| == |items|
    && forall i :: 0 <= i < |items| ==> shares[i].item == items[i] && ByPath(shares[i]) && Fair(shares[i])
  }

  ghost function BytesIn(shares: seq<Share>, c: Category): nat {
    if |shares| == 0 then 0
    else (if shares[0].category == c then shares[0].bytes else 0) + BytesIn(shares[1..], c)
  }

  ghost function Bytes(shares: seq<Share>): nat {
    if |shares| == 0 then 0 else shares[0].bytes + Bytes(shares[1..])
  }

  /** The directories the walk goes into. */
  ghost function Entered(items: seq<Item>): nat {
    if |items| == 0 then 0
    else (if items[0].entry.Directory? && !Archive(items[0].path) then 1 else 0) + Entered(items[1..])
  }

  /** Nothing about this entry refuses the walk. */
  ghost predicate Sound(item: Item) {
    match item.entry
    case Vanished(_) => true
    case File(_, ok, size, blocks) => !Archive(item.path) && ok && size < TOTAL_LIMIT && blocks < BLOCK_LIMIT
    case Directory(_, ok, _) => Archive(item.path) || (ok && |item.path| <= 16)
  }

  ghost predicate AllSound(items: seq<Item>) {
    forall i :: 0 <= i < |items| ==> Sound(items[i])
  }

  /** What the walk carries down says no more than the path does. */
  ghost predicate Carries(depth: nat, category: Category, path: seq<string>) {
    depth == |path| && (depth > 0 ==> category == TopCategory(path[0]))
  }

  /** The account is what these shares and items add up to. */
  ghost predicate Sums(a: Account, items: seq<Item>, shares: seq<Share>) {
    && (forall c: Category :: Of(a.totals, c) == BytesIn(shares, c)) && Whole(a.totals) == Bytes(shares)
    && a.entries == |items| && a.directories == Entered(items) && (a.sound <==> AllSound(items))
  }

  lemma {:induction false} BytesInAppend(xs: seq<Share>, ys: seq<Share>, c: Category)
    ensures BytesIn(xs + ys, c) == BytesIn(xs, c) + BytesIn(ys, c)
  {
    if |xs| == 0 {
      assert xs + ys == ys;
    } else {
      assert (xs + ys)[0] == xs[0] && (xs + ys)[1..] == xs[1..] + ys;
      BytesInAppend(xs[1..], ys, c);
    }
  }

  lemma {:induction false} BytesAppend(xs: seq<Share>, ys: seq<Share>)
    ensures Bytes(xs + ys) == Bytes(xs) + Bytes(ys)
  {
    if |xs| == 0 {
      assert xs + ys == ys;
    } else {
      assert (xs + ys)[0] == xs[0] && (xs + ys)[1..] == xs[1..] + ys;
      BytesAppend(xs[1..], ys);
    }
  }

  lemma {:induction false} EnteredAppend(xs: seq<Item>, ys: seq<Item>)
    ensures Entered(xs + ys) == Entered(xs) + Entered(ys)
  {
    if |xs| == 0 {
      assert xs + ys == ys;
    } else {
      assert (xs + ys)[0] == xs[0] && (xs + ys)[1..] == xs[1..] + ys;
      EnteredAppend(xs[1..], ys);
    }
  }

  lemma {:induction false} AllSoundAppend(xs: seq<Item>, ys: seq<Item>)
    ensures AllSound(xs + ys) <==> AllSound(xs) && AllSound(ys)
  {
    if AllSound(xs + ys) {
      forall i | 0 <= i < |xs|
        ensures Sound(xs[i])
      {
        assert (xs + ys)[i] == xs[i];
      }
      forall i | 0 <= i < |ys|
        ensures Sound(ys[i])
      {
        assert (xs + ys)[|xs| + i] == ys[i];
      }
    }
  }

  lemma {:induction false} JoinSums(a: Account, b: Account, xs: seq<Item>, ys: seq<Item>, s: seq<Share>, r: seq<Share>)
    requires Sums(a, xs, s) && Sums(b, ys, r)
    ensures Sums(Join(a, b), xs + ys, s + r)
  {
    forall c: Category
      ensures Of(Join(a, b).totals, c) == BytesIn(s + r, c)
    {
      BytesInAppend(s, r, c);
    }
    BytesAppend(s, r);
    EnteredAppend(xs, ys);
    AllSoundAppend(xs, ys);
  }

  lemma {:induction false} JoinShares(xs: seq<Item>, ys: seq<Item>, s: seq<Share>, r: seq<Share>)
    requires SharesOf(xs, s) && SharesOf(ys, r)
    ensures SharesOf(xs + ys, s + r)
  {
  }

  lemma {:induction false} OneShare(items: seq<Item>, shares: seq<Share>)
    requires |items| == |shares| == 1 && shares[0].item == items[0] && ByPath(shares[0]) && Fair(shares[0])
    ensures SharesOf(items, shares)
  {
  }

  lemma {:induction false} OneBytes(shares: seq<Share>, t: Totals)
    requires |shares| == 1
    requires forall c: Category :: Of(t, c) == if shares[0].category == c then shares[0].bytes else 0
    ensures forall c: Category :: Of(t, c) == BytesIn(shares, c)
    ensures Whole(t) == Bytes(shares)
  {
    assert |shares[1..]| == 0;
    forall c: Category
      ensures Of(t, c) == BytesIn(shares, c)
    {
    }
  }

  lemma {:induction false} OneSums(a: Account, items: seq<Item>, shares: seq<Share>)
    requires |items| == |shares| == 1
    requires forall c: Category :: Of(a.totals, c) == if shares[0].category == c then shares[0].bytes else 0
    requires a.entries == 1 && (a.sound <==> Sound(items[0]))
    requires a.directories == if items[0].entry.Directory? && !Archive(items[0].path) then 1 else 0
    ensures Sums(a, items, shares)
  {
    assert |items[1..]| == 0;
    OneBytes(shares, a.totals);
  }

  lemma {:induction false} CategoryOnPath(e: Entry, depth: nat, category: Category, path: seq<string>)
    requires Carries(depth, category, path)
    ensures var here := path + [e.name];
            && FileCategory(e.name, depth, category) == PathCategory(here)
            && Carries(depth + 1, Inherited(e.name, depth, category), here)
            && (InArchive(e.name, depth) <==> Archive(here))
  {
    var here := path + [e.name];
    assert here[0] == if depth == 0 then e.name else path[0];
    assert here[|here| - 1] == e.name;
  }

  /** What an entry costs without anything below it: with itself entered, if it is. */
  function Alone(e: Entry, depth: nat, archive: bool, kind: Category): Account {
    match e
    case Vanished(_) => Account(ZERO, 1, 0, true)
    case File(_, ok, size, blocks) =>
      if archive then Account(ZERO, 1, 0, false)
      else Account(Charged(ZERO, kind, FileBytes(size, blocks)), 1, 0, FileOk(ok, size, blocks))
    case Directory(_, ok, _) =>
      if archive then Account(ZERO, 1, 0, true) else Account(ZERO, 1, 1, ok && depth < MAX_DEPTH)
  }

  lemma {:induction false} AloneSums(e: Entry, depth: nat, item: Item, share: Share)
    requires item.entry == e && |item.path| == depth + 1
    requires share.bytes == if e.File? && !Archive(item.path) then FileBytes(e.size, e.blocks) else 0
    ensures Sums(Alone(e, depth, Archive(item.path), share.category), [item], [share])
  {
    var a := Alone(e, depth, Archive(item.path), share.category);
    assert forall c: Category :: Of(a.totals, c) == if share.category == c then share.bytes else 0;
    OneSums(Alone(e, depth, Archive(item.path), share.category), [item], [share]);
  }

  lemma {:induction false} AloneShare(e: Entry, depth: nat, category: Category, path: seq<string>)
    returns (share: Share)
    requires Carries(depth, category, path)
    ensures share.category == FileCategory(e.name, depth, category)
    ensures var item := Item(path + [e.name], e);
            Sums(Alone(e, depth, Archive(item.path), share.category), [item], [share]) && SharesOf([item], [share])
  {
    var item := Item(path + [e.name], e);
    CategoryOnPath(e, depth, category, path);
    share := Share(item, FileCategory(e.name, depth, category),
                   if e.File? && !Archive(item.path) then FileBytes(e.size, e.blocks) else 0);
    AloneSums(e, depth, item, share);
    OneShare([item], [share]);
  }

  lemma {:induction false} LeafCost(e: Entry, depth: nat, category: Category)
    requires e.Directory? ==> InArchive(e.name, depth)
    ensures Cost(e, depth, category) == Alone(e, depth, InArchive(e.name, depth), FileCategory(e.name, depth, category))
  {
  }

  lemma {:induction false} JoinEntering(own: Account, e: Entry, depth: nat, kind: Category, below: Account)
    requires e.Directory? && own == Account(ZERO, 1, 0, e.ok)
    ensures Join(own, Join(Entering(depth + 1), below)) == Join(Alone(e, depth, false, kind), below)
  {
  }

  lemma {:induction false} DirectoryCost(e: Entry, depth: nat, category: Category, kind: Category)
    requires e.Directory? && !InArchive(e.name, depth)
    ensures Cost(e, depth, category)
         == Join(Alone(e, depth, false, kind), CostAll(e.children, depth + 1, Inherited(e.name, depth, category)))
  {
    JoinEntering(Own(e, depth, category), e, depth, kind,
                 CostAll(e.children, depth + 1, Inherited(e.name, depth, category)));
  }

  lemma {:induction false} NoSums(items: seq<Item>, shares: seq<Share>)
    requires |items| == 0 && |shares| == 0
    ensures Sums(NOTHING, items, shares) && SharesOf(items, shares)
  {
  }

  lemma {:induction false} EntrySums(e: Entry, depth: nat, category: Category, path: seq<string>)
    returns (shares: seq<Share>)
    requires Carries(depth, category, path)
    ensures Sums(Cost(e, depth, category), ListedAt(e, path), shares) && SharesOf(ListedAt(e, path), shares)
    decreases e
  {
    var here := path + [e.name];
    var own := AloneShare(e, depth, category, path);
    CategoryOnPath(e, depth, category, path);
    shares := [own];
    if e.Directory? && !Archive(here) {
      var chosen := Inherited(e.name, depth, category);
      var below := ListedSums(e.children, depth + 1, chosen, here);
      DirectoryCost(e, depth, category, own.category);
      JoinSums(Alone(e, depth, false, own.category), CostAll(e.children, depth + 1, chosen), [Item(here, e)],
               Listed(e.children, here), shares, below);
      JoinShares([Item(here, e)], Listed(e.children, here), shares, below);
      shares := shares + below;
    } else {
      assert ListedAt(e, path) == [Item(here, e)];
      LeafCost(e, depth, category);
    }
  }

  lemma {:induction false} ListedSums(es: seq<Entry>, depth: nat, category: Category, path: seq<string>)
    returns (shares: seq<Share>)
    requires Carries(depth, category, path)
    ensures Sums(CostAll(es, depth, category), Listed(es, path), shares) && SharesOf(Listed(es, path), shares)
    decreases es
  {
    shares := [];
    if |es| == 0 {
      NoSums(Listed(es, path), shares);
    } else {
      var first := EntrySums(es[0], depth, category, path);
      var rest := ListedSums(es[1..], depth, category, path);
      JoinSums(Cost(es[0], depth, category), CostAll(es[1..], depth, category), ListedAt(es[0], path),
               Listed(es[1..], path), first, rest);
      JoinShares(ListedAt(es[0], path), Listed(es[1..], path), first, rest);
      shares := first + rest;
    }
  }

  /** Everything the walk lists below the campaign directory. */
  ghost function Items(root: seq<Entry>): seq<Item> {
    Listed(root, seq(0, _ => ""))
  }

  /**
   * What an account of the whole directory says: every listed file is charged its size or its
   * blocks to the one category its path names, every listed entry counts, every directory
   * but the archive is entered, and it is sound exactly when every listed entry is.
   */
  ghost predicate Balances(root: seq<Entry>, a: Account, shares: seq<Share>) {
    && SharesOf(Items(root), shares)
    && a.directories > 0 && Sums(a.(directories := a.directories - 1), Items(root), shares)
  }

  lemma {:induction false} TotalBelow(root: seq<Entry>)
    ensures Total(root).directories > 0
    ensures Total(root).(directories := Total(root).directories - 1) == CostAll(root, 0, Control)
  {
  }

  /** Each category's total is exactly the bytes charged to the files whose path says so. */
  lemma {:induction false} ChargedByPath(root: seq<Entry>) returns (shares: seq<Share>)
    ensures Balances(root, Total(root), shares)
  {
    shares := ListedSums(root, 0, Control, seq(0, _ => ""));
    TotalBelow(root);
  }

  lemma {:induction false} EnteredFew(items: seq<Item>)
    ensures Entered(items) <= |items|
  {
    if |items| > 0 {
      EnteredFew(items[1..]);
    }
  }

  /** The categories add up to the bytes charged for all files, and every directory but the root was an entry. */
  lemma {:induction false} TotalConserves(root: seq<Entry>) returns (shares: seq<Share>)
    ensures 0 < Total(root).directories <= Total(root).entries + 1
    ensures SharesOf(Items(root), shares) && Whole(Total(root).totals) == Bytes(shares)
  {
    shares := ChargedByPath(root);
    EnteredFew(Items(root));
  }

  // --- the stack -----------------------------------------------------------

  datatype Pending = Pending(children: seq<Entry>, depth: nat, category: Category)

  ghost function Due(p: Pending): Account {
    Join(Entering(p.depth), CostAll(p.children, p.depth, p.category))
  }

  ghost function Owed(stack: seq<Pending>): Account {
    if |stack| == 0 then NOTHING else Join(Owed(stack[..|stack| - 1]), Due(stack[|stack| - 1]))
  }

  lemma {:induction false} Push(stack: seq<Pending>, p: Pending)
    ensures Owed(stack + [p]) == Join(Owed(stack), Due(p))
  {
    assert (stack + [p])[..|stack|] == stack;
  }

  lemma {:induction false} PlusUnit(t: Totals)
    ensures Plus(ZERO, t) == t == Plus(t, ZERO)
  {
    assert Plus(ZERO, t).Keys == t.Keys && Plus(t, ZERO).Keys == t.Keys;
  }

  lemma {:induction false} PlusCommutes(t: Totals, u: Totals)
    ensures Plus(t, u) == Plus(u, t)
  {
    assert Plus(t, u).Keys == Plus(u, t).Keys;
  }

  lemma {:induction false} PlusAssociates(t: Totals, u: Totals, v: Totals)
    ensures Plus(Plus(t, u), v) == Plus(t, Plus(u, v))
  {
    assert Plus(Plus(t, u), v).Keys == Plus(t, Plus(u, v)).Keys;
  }

  lemma {:induction false} JoinUnit(a: Account)
    ensures Join(NOTHING, a) == a == Join(a, NOTHING)
  {
    PlusUnit(a.totals);
  }

  lemma {:induction false} JoinCommutes(a: Account, b: Account)
    ensures Join(a, b) == Join(b, a)
  {
    PlusCommutes(a.totals, b.totals);
  }

  lemma {:induction false} JoinAssociates(a: Account, b: Account, c: Account)
    ensures Join(Join(a, b), c) == Join(a, Join(b, c))
  {
    PlusAssociates(a.totals, b.totals, c.totals);
  }

  lemma {:induction false} JoinMoves(a: Account, b: Account, c: Account, d: Account)
    ensures Join(Join(a, b), Join(c, d)) == Join(Join(Join(a, c), b), d)
  {
    calc {
      Join(Join(a, b), Join(c, d));
      { JoinAssociates(Join(a, b), c, d); }
      Join(Join(Join(a, b), c), d);
      { JoinAssociates(a, b, c); JoinCommutes(b, c); JoinAssociates(a, c, b); }
      Join(Join(Join(a, c), b), d);
    }
  }

  lemma {:induction false} JoinSplits(a: Account, b: Account, c: Account, d: Account, e: Account)
    ensures Join(Join(a, b), Join(Join(c, d), e)) == Join(Join(Join(a, c), Join(b, d)), e)
  {
    calc {
      Join(Join(a, b), Join(Join(c, d), e));
      { JoinAssociates(c, d, e); JoinMoves(a, b, c, Join(d, e)); }
      Join(Join(Join(a, c), b), Join(d, e));
      { JoinAssociates(Join(Join(a, c), b), d, e); }
      Join(Join(Join(Join(a, c), b), d), e);
      { JoinAssociates(Join(a, c), b, d); }
      Join(Join(Join(a, c), Join(b, d)), e);
    }
  }

  /** A part over the limits is enough to put the whole over. */
  lemma {:induction false} PartExceeds(done: Account, left: Account, rest: Account)
    requires !Within(done)
    ensures !Within(Join(Join(done, left), rest))
  {
  }

  /** Done so far, still on the stack, and the rest of the listing at hand make up the whole. */
  ghost predicate Balanced(done: Account, stack: seq<Pending>, rest: Account, whole: Account) {
    Within(done) && Join(Join(done, Owed(stack)), rest) == whole
  }

  function Below(e: Entry, depth: nat, category: Category): Pending
    requires e.Directory?
  {
    Pending(e.children, depth + 1, Inherited(e.name, depth, category))
  }

  lemma {:induction false} VisitKeeps(done: Account, stack: seq<Pending>, rest: seq<Entry>, depth: nat,
                                      category: Category, whole: Account)
    requires rest != [] && Balanced(done, stack, CostAll(rest, depth, category), whole)
    ensures var next := Join(done, Own(rest[0], depth, category));
            && (!Within(next) ==> !Within(whole))
            && (Within(next) && !(rest[0].Directory? && !InArchive(rest[0].name, depth))
                ==> Balanced(next, stack, CostAll(rest[1..], depth, category), whole))
            && (Within(next) && rest[0].Directory? && !InArchive(rest[0].name, depth)
                ==> Balanced(next, stack + [Below(rest[0], depth, category)], CostAll(rest[1..], depth, category),
                             whole))
  {
    var e := rest[0];
    var own, after := Own(e, depth, category), CostAll(rest[1..], depth, category);
    assert CostAll(rest, depth, category) == Join(Cost(e, depth, category), after);
    if e.Directory? && !InArchive(e.name, depth) {
      var p := Below(e, depth, category);
      Push(stack, p);
      JoinSplits(done, Owed(stack), own, Due(p), after);
      if !Within(Join(done, own)) {
        PartExceeds(Join(done, own), Owed(stack + [p]), after);
      }
    } else {
      JoinMoves(done, Owed(stack), own, after);
      if !Within(Join(done, own)) {
        PartExceeds(Join(done, own), Owed(stack), after);
      }
    }
  }

  /** What a file's own share adds to the totals so far. */
  lemma {:induction false} ChargeJoins(t: Totals, c: Category, n: nat)
    ensures Plus(t, Charged(ZERO, c, n)) == Charged(t, c, n)
  {
    assert Plus(t, Charged(ZERO, c, n)).Keys == Charged(t, c, n).Keys;
  }

  /** Account for one listed entry: charge a file, push a directory, skip what is gone. */
  method Visit(done: Account, stack: seq<Pending>, e: Entry, depth: nat, category: Category)
    returns (ok: bool, now: Account, pending: seq<Pending>)
    requires Within(done)
    ensures now == Join(done, Own(e, depth, category)) || !ok
    ensures ok == Within(Join(done, Own(e, depth, category)))
    ensures pending == if e.Directory? && !InArchive(e.name, depth) then stack + [Below(e, depth, category)] else stack
  {
    now, pending := done.(entries := done.entries + 1), stack;
    PlusUnit(done.totals);
    ok := now.entries <= MAX_ENTRIES;
    if e.Directory? && !InArchive(e.name, depth) {
      ok, pending := ok && e.ok, stack + [Below(e, depth, category)];
    } else if e.File? {
      var selected := FileCategory(e.name, depth, category);
      ChargeJoins(done.totals, selected, FileBytes(e.size, e.blocks));
      now := now.(totals := Charged(done.totals, selected, FileBytes(e.size, e.blocks)));
      ok := ok && !InArchive(e.name, depth) && FileOk(e.ok, e.size, e.blocks) && Of(now.totals, selected) < TOTAL_LIMIT;
    }
  }

  /** One directory listing, in whatever order it comes. */
  method Scan(before: Account, stack: seq<Pending>, listing: seq<Entry>, depth: nat, category: Category,
              ghost whole: Account)
    returns (ok: bool, done: Account, pending: seq<Pending>)
    requires Balanced(before, stack, CostAll(listing, depth, category), whole)
    ensures !ok ==> !Within(whole)
    ensures ok ==> Balanced(done, pending, NOTHING, whole) && done.directories == before.directories
  {
    done, pending := before, stack;
    assert listing[0..] == listing;
    for i := 0 to |listing|
      invariant Balanced(done, pending, CostAll(listing[i..], depth, category), whole)
                && done.directories == before.directories
    {
      assert listing[i..][1..] == listing[i + 1..];
      VisitKeeps(done, pending, listing[i..], depth, category, whole);
      ok, done, pending := Visit(done, pending, listing[i], depth, category);
      if !ok {
        return;
      }
    }
    return true, done, pending;
  }

  lemma {:induction false} PopJoins(done: Account, owed: Account, entering: Account, rest: Account)
    ensures Join(Join(done, Join(owed, Join(entering, rest))), NOTHING)
         == Join(Join(Join(done, entering), owed), rest)
  {
    JoinUnit(Join(done, Join(owed, Join(entering, rest))));
    JoinAssociates(done, owed, Join(entering, rest));
    JoinMoves(done, owed, entering, rest);
  }

  lemma {:induction false} PopKeeps(done: Account, below: seq<Pending>, top: Pending, whole: Account)
    requires Balanced(done, below + [top], NOTHING, whole)
    ensures var next := Join(done, Entering(top.depth));
            && (!Within(next) ==> !Within(whole))
            && (Within(next) ==> Balanced(next, below, CostAll(top.children, top.depth, top.category), whole))
  {
    var rest := CostAll(top.children, top.depth, top.category);
    Push(below, top);
    PopJoins(done, Owed(below), Entering(top.depth), rest);
    if !Within(Join(done, Entering(top.depth))) {
      PartExceeds(Join(done, Entering(top.depth)), Owed(below), rest);
    }
  }

  lemma {:induction false} OwedTop(stack: seq<Pending>)
    requires |stack| > 0
    ensures Owed(stack) == Join(Owed(stack[..|stack| - 1]), Due(stack[|stack| - 1]))
  {
  }

  lemma {:induction false} OwedNone(stack: seq<Pending>)
    requires |stack| == 0
    ensures Owed(stack) == NOTHING
  {
  }

  lemma {:induction false} WholeOwed(stack: seq<Pending>)
    ensures Balanced(NOTHING, stack, NOTHING, Owed(stack))
  {
    JoinUnit(Owed(stack));
  }

  lemma {:induction false} WalkEnds(done: Account, stack: seq<Pending>, whole: Account)
    requires |stack| == 0 && Balanced(done, stack, NOTHING, whole)
    ensures done == whole && Within(whole)
  {
    OwedNone(stack);
    JoinUnit(done);
  }

  lemma {:induction false} WalkStarts(root: seq<Entry>, stack: seq<Pending>)
    requires |stack| == 1 && stack[0] == Pending(root, 0, Control)
    ensures Balanced(NOTHING, stack, NOTHING, Total(root))
  {
    OwedTop(stack);
    OwedNone(stack[..0]);
    JoinUnit(Due(stack[0]));
    PlusUnit(Total(root).totals);
    WholeOwed(stack);
  }

  /** Take the last directory off the stack and list it. */
  method Enter(before: Account, stack: seq<Pending>, ghost whole: Account)
    returns (ok: bool, done: Account, pending: seq<Pending>)
    requires |stack| > 0 && Balanced(before, stack, NOTHING, whole)
    ensures !ok ==> !Within(whole)
    ensures ok ==> Balanced(done, pending, NOTHING, whole) && done.directories == before.directories + 1
  {
    var top, below := stack[|stack| - 1], stack[..|stack| - 1];
    assert stack == below + [top];
    PopKeeps(before, below, top, whole);
    done, pending := Join(before, Entering(top.depth)), below;
    if top.depth > MAX_DEPTH || done.directories > MAX_DIRECTORIES {
      return false, done, pending;
    }
    PlusUnit(before.totals);
    ok, done, pending := Scan(done, below, top.children, top.depth, top.category, whole);
  }

  /** What a walk can return. */
  ghost predicate Walked(a: Account) {
    Within(a) && exists root :: a == Total(root)
  }

  /**
   * Accepts exactly the trees whose account is within the limits, and returns that account:
   * what the listed entries, each file charged in full to the category of its path, add up to.
   */
  method Snapshot(root: seq<Entry>) returns (ok: bool, done: Account)
    ensures ok <==> Within(Total(root))
    ensures ok ==> done == Total(root) && Walked(done) && exists shares :: Balances(root, done, shares)
  {
    ghost var shares := ChargedByPath(root);
    ghost var whole := Total(root);
    var stack := [Pending(root, 0, Control)];
    done := NOTHING;
    WalkStarts(root, stack);
    while |stack| > 0
      invariant Balanced(done, stack, NOTHING, whole)
      decreases whole.directories - done.directories
    {
      ok, done, stack := Enter(done, stack, whole);
      if !ok {
        return;
      }
    }
    WalkEnds(done, stack, whole);
    return true, done;
  }

  // --- the offline check of the counts -------------------------------------

  /** What the offline check asks of a sample's counts. */
  predicate CountsAccepted(entries: nat, directories: nat) {
    0 < directories <= MAX_DIRECTORIES && directories - 1 <= entries <= MAX_ENTRIES
  }

  /** Every sample's counts pass the offline check. */
  lemma {:induction false} WalkedCounts(a: Account)
    requires Walked(a)
    ensures CountsAccepted(a.entries, a.directories)
  {
    var root :| a == Total(root);
    var shares := TotalConserves(root);
  }

  // --- the order of listings does not matter -------------------------------

  ghost predicate Shuffled(es: seq<Entry>, fs: seq<Entry>) {
    multiset(es) == multiset(fs)
  }

  /** The same tree, with every directory's listing in any order. */
  ghost predicate Similar(e: Entry, f: Entry)
    decreases e
  {
    if e.Directory?
    then f.Directory? && f.name == e.name && f.ok == e.ok && SimilarAll(e.children, f.children)
    else e == f
  }

  ghost predicate SimilarAll(es: seq<Entry>, fs: seq<Entry>)
    decreases es
  {
    exists g: seq<Entry> :: Shuffled(g, fs) && |g| == |es| && forall i :: 0 <= i < |es| ==> Similar(es[i], g[i])
  }

  lemma {:induction false} JoinOrder(a: Account, b: Account, c: Account)
    ensures Join(a, Join(b, c)) == Join(b, Join(a, c))
  {
  }

  lemma {:induction false} CostFirst(es: seq<Entry>, depth: nat, category: Category)
    requires |es| > 0
    ensures CostAll(es, depth, category) == Join(Cost(es[0], depth, category), CostAll(es[1..], depth, category))
  {
  }

  lemma {:induction false} WithoutLater(es: seq<Entry>, k: nat)
    requires 0 < k < |es|
    ensures var without := es[..k] + es[k + 1..];
            without[0] == es[0] && es[1..][..k - 1] + es[1..][k..] == without[1..] && es[1..][k - 1] == es[k]
  {
  }

  lemma {:induction false} TakeOut(es: seq<Entry>, k: nat, depth: nat, category: Category)
    requires k < |es|
    ensures CostAll(es, depth, category) == Join(Cost(es[k], depth, category),
                                                 CostAll(es[..k] + es[k + 1..], depth, category))
    decreases k
  {
    var without := es[..k] + es[k + 1..];
    CostFirst(es, depth, category);
    if k == 0 {
      assert without == es[1..];
    } else {
      WithoutLater(es, k);
      TakeOut(es[1..], k - 1, depth, category);
      CostFirst(without, depth, category);
      JoinOrder(Cost(es[0], depth, category), Cost(es[k], depth, category), CostAll(without[1..], depth, category));
    }
  }

  lemma {:induction false} Find(es: seq<Entry>, fs: seq<Entry>) returns (k: nat)
    requires Shuffled(es, fs) && es != []
    ensures k < |fs| && fs[k] == es[0] && Shuffled(es[1..], fs[..k] + fs[k + 1..])
  {
    assert es[0] in multiset(fs);
    k :| 0 <= k < |fs| && fs[k] == es[0];
    assert fs == fs[..k] + [fs[k]] + fs[k + 1..];
    assert es == [es[0]] + es[1..];
    assert multiset(fs) == multiset(fs[..k]) + multiset{fs[k]} + multiset(fs[k + 1..]);
    assert multiset(fs[..k] + fs[k + 1..]) == multiset(fs) - multiset{es[0]};
    assert multiset(es[1..]) == multiset(es) - multiset{es[0]};
  }

  lemma {:induction false} ShuffledCost(es: seq<Entry>, fs: seq<Entry>, depth: nat, category: Category)
    requires Shuffled(es, fs)
    ensures CostAll(es, depth, category) == CostAll(fs, depth, category)
    decreases |es|
  {
    if |es| == 0 {
      assert |multiset(fs)| == 0;
    } else {
      var k := Find(es, fs);
      TakeOut(fs, k, depth, category);
      ShuffledCost(es[1..], fs[..k] + fs[k + 1..], depth, category);
    }
  }

  lemma {:induction false} SimilarCost(e: Entry, f: Entry, depth: nat, category: Category)
    requires Similar(e, f)
    ensures Cost(e, depth, category) == Cost(f, depth, category)
    decreases e
  {
    if e.Directory? && !InArchive(e.name, depth) {
      OrderIrrelevant(e.children, f.children, depth + 1, Inherited(e.name, depth, category));
    }
  }

  lemma {:induction false} PairwiseCost(es: seq<Entry>, g: seq<Entry>, depth: nat, category: Category)
    requires |g| == |es| && forall i :: 0 <= i < |es| ==> Similar(es[i], g[i])
    ensures CostAll(es, depth, category) == CostAll(g, depth, category)
    decreases es, 0
  {
    if |es| > 0 {
      SimilarCost(es[0], g[0], depth, category);
      PairwiseCost(es[1..], g[1..], depth, category);
    }
  }

  /** Listings in any order, at every level, give the same account and the same verdict. */
  lemma {:induction false} OrderIrrelevant(es: seq<Entry>, fs: seq<Entry>, depth: nat, category: Category)
    requires SimilarAll(es, fs)
    ensures CostAll(es, depth, category) == CostAll(fs, depth, category)
    decreases es, 1
  {
    var g: seq<Entry> :| Shuffled(g, fs) && |g| == |es| && forall i :: 0 <= i < |es| ==> Similar(es[i], g[i]);
    PairwiseCost(es, g, depth, category);
    ShuffledCost(g, fs, depth, category);
  }
}
