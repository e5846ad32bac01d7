/** Pages under the protocol: every live page is in exactly one place, and the descriptor
    of a multi-page run lives exactly as long as one of its pages.

    A memory state adds page addresses, the pool, the private chains and the run
    descriptors to a protocol state.  Every memory step performs one protocol step. */
module Conservation {
  import opened Positions
  import opened Machine
  import opened Invariant
  import opened LocalSteps
  import opened PushSteps
  import opened PopSteps
  import opened Safety
  import opened Reclamation

  type Addr = nat
  type RunId = nat

  /** Where a live page is. */
  datatype Spot = Linked(k: nat) | Pooled | Chained(id: Id) | InHand(id: Id, k: nat)

  /** A live page; `run` is its descriptor, none for a standalone page. */
  datatype Page = Page(spot: Spot, run: Option<RunId>)

  /** `serial[k]` is the address of linked block `k`; `chains[id]` is the private chain of
      call `id`; `left` holds the counters of the live run descriptors. */
  datatype Memory = Memory(
    s: State, home: map<Addr, Page>, serial: seq<Addr>, chains: seq<seq<Addr>>,
    pool: Option<Addr>, left: map<RunId, nat>)

  /** What the allocator returns: the addresses of new pages and of a new descriptor. */
  datatype Grant = Grant(pages: seq<Addr>, descriptor: RunId)

  predicate Distinct<A(==)>(a: seq<A>) {
    forall i, j :: 0 <= i < j < |a| ==> a[i] != a[j]
  }

  // ---------- block.rs: pages and chains ----------

  function Rehome(home: map<Addr, Page>, pages: seq<Addr>, page: Page): map<Addr, Page> {
    map a | a in home.Keys + (set p | p in pages) :: if a in pages then page else home[a]
  }

  /** `BlockRun::release`: the last page of a run takes the descriptor with it. */
  function Release(left: map<RunId, nat>, r: RunId): map<RunId, nat> {
    if r in left && left[r] > 1 then left[r := left[r] - 1] else left - {r}
  }

  /** `Block::free` of the page at `a`. */
  function Free(m: Memory, a: Addr): Memory
    requires a in m.home
  {
    m.(home := m.home - {a},
       left := if m.home[a].run.Some? then Release(m.left, m.home[a].run.value) else m.left)
  }

  /** `Drop for BlockChain`: frees the chain of `id` page by page. */
  function DropChain(m: Memory, id: Id): Memory
    requires id < |m.chains|
    decreases if id < |m.chains| then |m.chains[id]| else 0
  {
    var chain := m.chains[id];
    if chain == [] || chain[0] !in m.home then m
    else DropChain(Free(m, chain[0]).(chains := m.chains[id := chain[1..]]), id)
  }

  /** `grow_to_fit_with`: takes the pooled page if the chain is too short, then allocates the
      rest, as one run if it is more than one page. */
  function TakePool(m: Memory, id: Id, size: nat): Memory
    requires id < |m.chains|
  {
    if Base(m.s.L, |m.chains[id]|) < size && m.pool.Some? then
      m.(home := Rehome(m.home, [m.pool.value], Page(Chained(id), None)),
         chains := m.chains[id := m.chains[id] + [m.pool.value]], pool := None)
    else m
  }

  function Lacking(m: Memory, id: Id, size: nat): nat
    requires id < |m.chains| && m.s.L > 0
  {
    PagesFor(m.s.L, SatSub(size, Base(m.s.L, |m.chains[id]|)))
  }

  function Allocate(m: Memory, id: Id, g: Grant): Memory
    requires id < |m.chains|
  {
    var run := if |g.pages| > 1 then Some(g.descriptor) else None;
    m.(home := Rehome(m.home, g.pages, Page(Chained(id), run)),
       chains := m.chains[id := m.chains[id] + g.pages],
       left := if |g.pages| > 1 then m.left[g.descriptor := |g.pages|] else m.left)
  }

  function Grow(m: Memory, id: Id, size: nat, g: Grant): Memory
    requires id < |m.chains|
  {
    Allocate(TakePool(m, id, size), id, g)
  }

  /** The allocator hands out as many fresh pages as are lacking, and a fresh descriptor. */
  ghost predicate Grants(m: Memory, id: Id, size: nat, g: Grant)
    requires id < |m.chains| && m.s.L > 0
  {
    && |g.pages| == Lacking(TakePool(m, id, size), id, size)
    && Distinct(g.pages)
    && (forall a :: a in g.pages ==> a !in m.home)
    && g.descriptor !in m.left
  }

  /** The private chain of `id` becomes the tail of the list. */
  function LinkChain(m: Memory, id: Id): Memory
    requires id < |m.chains|
  {
    m.(home := map a | a in m.home ::
                 if a in m.chains[id] then Page(Linked(|m.serial| + IndexOf(m.chains[id], a)), m.home[a].run)
                 else m.home[a],
       serial := m.serial + m.chains[id],
       chains := m.chains[id := []])
  }

  function IndexOf(pages: seq<Addr>, a: Addr): (i: nat)
    requires a in pages
    ensures i < |pages| && pages[i] == a
  {
    if pages[0] == a then 0 else 1 + IndexOf(pages[1..], a)
  }

  // ---------- the effect of a protocol step on memory ----------

  /** The pages after the protocol step of call `id`; `m.s` is still the state before it. */
  function Effect(m: Memory, id: Id, g: Grant): Memory
    requires id < |m.s.ops| == |m.chains|
  {
    match m.s.ops[id]
    case PLoad(_) => Grow(m, id, Request(m.s, id), g)
    case PLoop(_, _, _) => Grow(m, id, Request(m.s, id), g)
    case PInit(_) => if m.s.phead.Zero? then LinkChain(m, id) else m
    case PFill(_, _, StoreRoot) => LinkChain(m, id)
    case PWrite(items, _, done, Pick(_)) =>
      if done >= |items| then DropChain(m, id) else m
    case CIter(it, Consume(k)) =>
      if k < |m.serial| && k < |m.s.blocks| && m.s.blocks[k].consumed + it.pending == m.s.L && m.serial[k] in m.home
      then m.(home := m.home[m.serial[k] := m.home[m.serial[k]].(spot := InHand(id, k))]) else m
    case CIter(_, Reclaim(k)) =>
      if k < |m.serial| && m.serial[k] in m.home then Recycle(m, m.serial[k]) else m
    case _ => m
  }

  /** `finish_block_segment`: a standalone page goes to an empty pool, any other is freed. */
  function Recycle(m: Memory, a: Addr): Memory
    requires a in m.home
  {
    if m.home[a].run.None? && m.pool.None?
    then m.(home := m.home[a := Page(Pooled, None)], pool := Some(a))
    else Free(m, a)
  }

  ghost predicate CanStep(m: Memory, step: Step, g: Grant) {
    && |m.chains| == |m.s.ops| && m.s.L > 0
    && Enabled(m.s, step)
    && (step.Run? ==>
          && Grants(m, step.id, Request(m.s, step.id), g)
          && (m.s.ops[step.id].PLoop? ==>
                step.c.chain == |Grow(m, step.id, Request(m.s, step.id), g).chains[step.id]|))
  }

  function MemoryStep(m: Memory, step: Step, g: Grant): Memory
    requires |m.chains| == |m.s.ops| && Enabled(m.s, step)
  {
    var s' := Apply(m.s, step);
    match step
    case Run(id, _) => Effect(m, id, g).(s := s')
    case Start(_) => m.(s := s', chains := m.chains + [[]])
    case Forget(_) => m.(s := s')
  }

  predicate InitialMemory(m: Memory) {
    && Initial(m.s) && m.home == map[] && m.serial == [] && m.chains == []
    && m.pool == None && m.left == map[]
  }

  // ---------- the invariant ----------

  ghost predicate PageOk(m: Memory, a: Addr)
    requires a in m.home
  {
    && (match m.home[a].spot
        case Linked(k) => k < |m.serial| && m.serial[k] == a && k < |m.s.blocks| && m.s.blocks[k].status.Live?
        case Pooled => m.pool == Some(a) && m.home[a].run.None?
        case Chained(id) => id < |m.chains| && a in m.chains[id]
        case InHand(id, k) => k < |m.serial| && m.serial[k] == a && k < |m.s.blocks| && m.s.blocks[k].status == Held(id))
    && (m.home[a].run.Some? ==> m.home[a].run.value in m.left)
  }

  ghost predicate Pages(m: Memory) {
    forall a :: a in m.home ==> PageOk(m, a)
  }

  ghost predicate ListOk(m: Memory) {
    && |m.serial| == |m.s.blocks|
    && forall k :: 0 <= k < |m.serial| ==>
         match m.s.blocks[k].status
         case Live => m.serial[k] in m.home && m.home[m.serial[k]].spot == Linked(k)
         case Held(id) => m.serial[k] in m.home && m.home[m.serial[k]].spot == InHand(id, k)
         case Gone => true
  }

  ghost predicate ChainsOk(m: Memory) {
    && |m.chains| == |m.s.ops|
    && (forall id :: 0 <= id < |m.chains| ==> Distinct(m.chains[id]))
    && (forall id, a :: 0 <= id < |m.chains| && a in m.chains[id] ==> a in m.home && m.home[a].spot == Chained(id))
  }

  ghost predicate PoolOk(m: Memory) {
    m.pool.Some? ==> m.pool.value in m.home && m.home[m.pool.value] == Page(Pooled, None)
  }

  /** The live pages of run `r`. */
  ghost function Members(home: map<Addr, Page>, r: RunId): (ms: set<Addr>) {
    set a | a in home && home[a].run == Some(r)
  }

  /** The counter of a descriptor is the number of its live pages, and is never zero. */
  ghost predicate RunsOk(home: map<Addr, Page>, left: map<RunId, nat>) {
    forall r :: r in left ==> left[r] == |Members(home, r)| && left[r] > 0
  }

  ghost predicate LayoutFacts(m: Memory) {
    Pages(m) && ListOk(m) && ChainsOk(m) && PoolOk(m) && RunsOk(m.home, m.left)
  }

  ghost predicate Layout(m: Memory) {
    LayoutFacts(m) == true
  }

  /** The length of the private chain that the protocol state records for a call. */
  ghost predicate ChainFits(op: Op, n: nat) {
    match op
    case PInit(_) => n == 1
    case PLoop(_, _, chain) => n == chain
    case PTry(_, _, chain) => n == chain
    case PFill(_, f, _) => n == f.root
    case PWrite(_, _, _, _) => true
    case _ => n == 0
  }

  ghost predicate Fits(m: Memory) {
    forall id :: 0 <= id < |m.s.ops| && id < |m.chains| ==> ChainFits(m.s.ops[id], |m.chains[id]|)
  }

  ghost predicate MemInv(m: Memory) {
    Inv(m.s) && Layout(m) && Fits(m)
  }

  // ---------- the effects keep the layout ----------

  lemma FreeKeepsRuns(m: Memory, a: Addr)
    requires a in m.home && RunsOk(m.home, m.left)
    requires m.home[a].run.Some? ==> m.home[a].run.value in m.left
    ensures RunsOk(Free(m, a).home, Free(m, a).left)
  {
    var m' := Free(m, a);
    forall r | r in m'.left
      ensures m'.left[r] == |Members(m'.home, r)| && m'.left[r] > 0
    {
      if m.home[a].run == Some(r) {
        assert Members(m'.home, r) == Members(m.home, r) - {a};
      } else {
        assert Members(m'.home, r) == Members(m.home, r);
      }
    }
  }

  /** A run keeps its descriptor exactly while it has a live page. */
  lemma FreeKeepsTags(m: Memory, a: Addr, b: Addr)
    requires a in m.home && b in m.home && b != a && RunsOk(m.home, m.left)
    requires m.home[b].run.Some? && m.home[b].run.value in m.left
    ensures m.home[b].run.value in Free(m, a).left
  {
    var r := m.home[b].run.value;
    if m.home[a].run == Some(r) {
      assert {a, b} <= Members(m.home, r);
      SubsetSize({a, b}, Members(m.home, r));
    }
  }

  lemma RehomeKeepsRuns(home: map<Addr, Page>, home': map<Addr, Page>, left: map<RunId, nat>)
    requires RunsOk(home, left) && home'.Keys == home.Keys
    requires forall a :: a in home ==> home'[a].run == home[a].run
    ensures RunsOk(home', left)
  {
    forall r | r in left
      ensures Members(home', r) == Members(home, r)
    {
    }
  }

  /** `m'` is `m` with `pages`, which were pooled or not live, at the end of the chain of `id`. */
  ghost predicate Joins(m: Memory, m': Memory, id: Id, pages: seq<Addr>, run: Option<RunId>) {
    && id < |m.chains| && Distinct(pages)
    && (forall a :: a in pages ==> a in m.home ==> m.home[a].spot.Pooled?)
    && m'.home == Rehome(m.home, pages, Page(Chained(id), run))
    && m'.chains == m.chains[id := m.chains[id] + pages]
    && m'.serial == m.serial && m'.s == m.s
    && (m'.pool == m.pool || m'.pool.None?)
    && (forall a :: a in m.home && m.home[a].spot.Pooled? ==> if m'.pool.None? then a in pages else a !in pages)
    && (run.Some? ==> run.value in m'.left)
    && (forall r :: r in m.left ==> r in m'.left)
  }

  lemma JoinsPages(m: Memory, m': Memory, id: Id, pages: seq<Addr>, run: Option<RunId>)
    requires Layout(m) && Joins(m, m', id, pages, run)
    ensures Pages(m')
  {
    forall a | a in m'.home
      ensures PageOk(m', a)
    {
      if a !in pages {
        assert PageOk(m, a);
      }
    }
  }

  lemma JoinsRest(m: Memory, m': Memory, id: Id, pages: seq<Addr>, run: Option<RunId>)
    requires Layout(m) && Joins(m, m', id, pages, run)
    ensures ListOk(m') && PoolOk(m') && ChainsOk(m')
  {
    forall i, a | 0 <= i < |m'.chains| && a in m'.chains[i]
      ensures a in m'.home && m'.home[a].spot == Chained(i)
    {
      if i != id || a !in pages {
        assert a in m.chains[i];
        assert m.home[a].spot == Chained(i);
      }
    }
    forall i, j | 0 <= i < j < |m'.chains[id]|
      ensures m'.chains[id][i] != m'.chains[id][j]
    {
      var n := |m.chains[id]|;
      if i < n <= j {
        assert m.chains[id][i] in m.chains[id] && pages[j - n] in pages;
        assert m.home[m.chains[id][i]].spot == Chained(id);
      }
    }
  }

  lemma TakePoolKeeps(m: Memory, id: Id, size: nat)
    requires Layout(m) && id < |m.chains|
    ensures Layout(TakePool(m, id, size))
  {
    var m' := TakePool(m, id, size);
    if m' != m {
      var pages := [m.pool.value];
      assert Joins(m, m', id, pages, None) by {
        forall a | a in m.home && m.home[a].spot.Pooled?
          ensures a in pages
        {
          assert PageOk(m, a);
        }
      }
      JoinsPages(m, m', id, pages, None);
      JoinsRest(m, m', id, pages, None);
      RehomeKeepsRuns(m.home, m'.home, m.left);
    }
  }

  lemma AllocateKeeps(m: Memory, id: Id, g: Grant)
    requires Layout(m) && id < |m.chains|
    requires Distinct(g.pages) && (forall a :: a in g.pages ==> a !in m.home) && g.descriptor !in m.left
    ensures Layout(Allocate(m, id, g))
  {
    var m' := Allocate(m, id, g);
    var run := if |g.pages| > 1 then Some(g.descriptor) else None;
    assert Joins(m, m', id, g.pages, run) by {
      forall a | a in m.home && m.home[a].spot.Pooled?
        ensures m.pool == Some(a)
      {
        assert PageOk(m, a);
      }
    }
    JoinsPages(m, m', id, g.pages, run);
    JoinsRest(m, m', id, g.pages, run);
    AllocateKeepsRuns(m, id, g);
  }

  function Elements(pages: seq<Addr>): set<Addr> {
    set a | a in pages
  }

  lemma {:induction false} DistinctSize(pages: seq<Addr>)
    requires Distinct(pages)
    ensures |Elements(pages)| == |pages|
  {
    if pages != [] {
      var rest := Elements(pages[1..]);
      DistinctSize(pages[1..]);
      assert forall k :: 0 <= k < |pages[1..]| ==> pages[1..][k] == pages[k + 1] != pages[0];
      assert pages[0] !in rest;
      assert Elements(pages) == rest + {pages[0]};
    }
  }

  lemma AllocateKeepsRuns(m: Memory, id: Id, g: Grant)
    requires Layout(m) && id < |m.chains|
    requires Distinct(g.pages) && (forall a :: a in g.pages ==> a !in m.home) && g.descriptor !in m.left
    ensures RunsOk(Allocate(m, id, g).home, Allocate(m, id, g).left)
  {
    var m' := Allocate(m, id, g);
    forall r | r in m'.left
      ensures m'.left[r] == |Members(m'.home, r)| && m'.left[r] > 0
    {
      if r == g.descriptor {
        assert Members(m'.home, r) == Elements(g.pages) by {
          forall a | a in m.home
            ensures m.home[a].run != Some(r)
          {
            assert PageOk(m, a);
          }
        }
        DistinctSize(g.pages);
      } else {
        assert Members(m'.home, r) == Members(m.home, r);
      }
    }
  }

  /** `s'` is the state after the chain of `id` has been linked. */
  ghost predicate Links(m: Memory, id: Id, s': State) {
    && id < |m.chains| && |s'.ops| == |m.s.ops|
    && |s'.blocks| == |m.s.blocks| + |m.chains[id]|
    && (forall k :: 0 <= k < |m.s.blocks| ==> s'.blocks[k].status == m.s.blocks[k].status)
    && (forall k :: |m.s.blocks| <= k < |s'.blocks| ==> s'.blocks[k].status.Live?)
  }

  lemma LinkChainPages(m: Memory, id: Id, s': State)
    requires Layout(m) && Links(m, id, s')
    ensures Pages(LinkChain(m, id).(s := s'))
  {
    var m' := LinkChain(m, id).(s := s');
    forall a | a in m'.home
      ensures PageOk(m', a)
    {
      assert PageOk(m, a);
    }
  }

  lemma LinkChainList(m: Memory, id: Id, s': State)
    requires Layout(m) && Links(m, id, s')
    ensures ListOk(LinkChain(m, id).(s := s'))
  {
    var m' := LinkChain(m, id).(s := s');
    var chain := m.chains[id];
    forall k | 0 <= k < |m'.serial|
      ensures match m'.s.blocks[k].status
              case Live => m'.serial[k] in m'.home && m'.home[m'.serial[k]].spot == Linked(k)
              case Held(j) => m'.serial[k] in m'.home && m'.home[m'.serial[k]].spot == InHand(j, k)
              case Gone => true
    {
      if k >= |m.serial| {
        var a := chain[k - |m.serial|];
        assert a in chain && m.home[a].spot == Chained(id);
        assert IndexOf(chain, a) == k - |m.serial|;
      } else if !m.s.blocks[k].status.Gone? {
        assert m.serial[k] !in chain;
      }
    }
  }

  lemma LinkChainKeeps(m: Memory, id: Id, s': State)
    requires Layout(m) && Links(m, id, s')
    ensures Layout(LinkChain(m, id).(s := s'))
  {
    LinkChainPages(m, id, s');
    LinkChainList(m, id, s');
    LinkChainChains(m, id, s');
    RehomeKeepsRuns(m.home, LinkChain(m, id).home, m.left);
  }

  lemma LinkChainChains(m: Memory, id: Id, s': State)
    requires Layout(m) && id < |m.chains| && |s'.ops| == |m.s.ops|
    ensures ChainsOk(LinkChain(m, id).(s := s')) && PoolOk(LinkChain(m, id))
  {
    var m' := LinkChain(m, id).(s := s');
    forall i, a | 0 <= i < |m'.chains| && a in m'.chains[i]
      ensures a in m'.home && m'.home[a].spot == Chained(i)
    {
      assert i != id && a in m.chains[i];
      assert m.home[a].spot == Chained(i);
    }
  }

  /** The first page of the chain of `id` is freed. */
  function FreeHead(m: Memory, id: Id): Memory
    requires id < |m.chains| && m.chains[id] != [] && m.chains[id][0] in m.home
  {
    Free(m, m.chains[id][0]).(chains := m.chains[id := m.chains[id][1..]])
  }

  lemma HeadInHome(m: Memory, id: Id)
    requires Layout(m) && id < |m.chains| && m.chains[id] != []
    ensures m.chains[id][0] in m.home && m.home[m.chains[id][0]].spot == Chained(id)
  {
    assert m.chains[id][0] in m.chains[id];
  }

  lemma FreeHeadPages(m: Memory, id: Id)
    requires Layout(m) && id < |m.chains| && m.chains[id] != [] && m.chains[id][0] in m.home
    ensures Pages(FreeHead(m, id))
  {
    var chain, m' := m.chains[id], FreeHead(m, id);
    forall b | b in m'.home
      ensures PageOk(m', b)
    {
      assert PageOk(m, b);
      if m.home[b].run.Some? {
        FreeKeepsTags(m, chain[0], b);
      }
      if m.home[b].spot == Chained(id) {
        assert b in chain && b in [chain[0]] + chain[1..];
      }
    }
  }

  lemma FreeHeadChains(m: Memory, id: Id)
    requires Layout(m) && id < |m.chains| && m.chains[id] != [] && m.chains[id][0] in m.home
    ensures ChainsOk(FreeHead(m, id))
  {
    var chain, m' := m.chains[id], FreeHead(m, id);
    assert chain[0] !in chain[1..] by {
      assert forall n :: 0 <= n < |chain[1..]| ==> chain[1..][n] == chain[n + 1];
    }
    forall i, b | 0 <= i < |m'.chains| && b in m'.chains[i]
      ensures b in m'.home && m'.home[b].spot == Chained(i)
    {
      assert b in m.chains[i];
      assert m.home[chain[0]].spot == Chained(id) by { HeadInHome(m, id); }
    }
  }

  /** Freeing a page that nothing but the chain of `id` refers to. */
  lemma FreeHeadKeeps(m: Memory, id: Id)
    requires Layout(m) && id < |m.chains| && m.chains[id] != []
    ensures m.chains[id][0] in m.home && Layout(FreeHead(m, id))
  {
    HeadInHome(m, id);
    FreeKeepsRuns(m, m.chains[id][0]);
    FreeHeadPages(m, id);
    FreeHeadChains(m, id);
  }

  lemma {:induction false} DropChainKeeps(m: Memory, id: Id)
    requires Layout(m) && id < |m.chains|
    ensures Layout(DropChain(m, id)) && DropChain(m, id).s == m.s
    ensures DropChain(m, id).chains == m.chains[id := []]
    decreases |m.chains[id]|
  {
    var chain := m.chains[id];
    if chain != [] {
      FreeHeadKeeps(m, id);
      DropChainKeeps(FreeHead(m, id), id);
    } else {
      assert m.chains[id := []] == m.chains;
    }
  }

  /** `s'` is the state after call `id` has completed block `k`, and `m'` has its page in hand. */
  ghost predicate Holds(m: Memory, id: Id, k: nat, s': State, m': Memory) {
    && k < |m.s.blocks| == |s'.blocks| && |s'.ops| == |m.s.ops| && k < |m.serial|
    && m.s.blocks[k].status.Live? && s'.blocks[k].status == Held(id)
    && (forall j :: 0 <= j < |m.s.blocks| && j != k ==> s'.blocks[j].status == m.s.blocks[j].status)
    && m.serial[k] in m.home
    && m' == m.(home := m.home[m.serial[k] := m.home[m.serial[k]].(spot := InHand(id, k))], s := s')
  }

  lemma HoldPages(m: Memory, id: Id, k: nat, s': State, m': Memory)
    requires Layout(m) && Holds(m, id, k, s', m')
    ensures Pages(m')
  {
    forall b | b in m'.home
      ensures PageOk(m', b)
    {
      assert PageOk(m, b);
    }
  }

  lemma HoldList(m: Memory, id: Id, k: nat, s': State, m': Memory)
    requires Layout(m) && Holds(m, id, k, s', m')
    ensures ListOk(m') && PoolOk(m') && ChainsOk(m')
  {
    assert m.home[m.serial[k]].spot == Linked(k);
  }

  lemma HoldKeeps(m: Memory, id: Id, k: nat, s': State, m': Memory)
    requires Layout(m) && Holds(m, id, k, s', m')
    ensures Layout(m')
  {
    HoldPages(m, id, k, s', m');
    HoldList(m, id, k, s', m');
    RehomeKeepsRuns(m.home, m'.home, m.left);
  }

  /** `s'` is the state after call `id` has handed over block `k`. */
  ghost predicate LetsGo(m: Memory, id: Id, k: nat, s': State) {
    && k < |m.s.blocks| == |s'.blocks| && |s'.ops| == |m.s.ops|
    && m.s.blocks[k].status == Held(id) && s'.blocks[k].status == Gone
    && (forall j :: 0 <= j < |m.s.blocks| && j != k ==> s'.blocks[j].status == m.s.blocks[j].status)
  }

  /** `m'` has the page of block `k` in the pool. */
  ghost predicate Pools(m: Memory, id: Id, k: nat, s': State, m': Memory) {
    && LetsGo(m, id, k, s') && m.pool.None? && k < |m.serial| && m.serial[k] in m.home && m.home[m.serial[k]].run.None?
    && m' == m.(home := m.home[m.serial[k] := Page(Pooled, None)], pool := Some(m.serial[k]), s := s')
  }

  lemma PoolPages(m: Memory, id: Id, k: nat, s': State, m': Memory)
    requires Layout(m) && Pools(m, id, k, s', m')
    ensures Pages(m')
  {
    forall b | b in m'.home
      ensures PageOk(m', b)
    {
      assert PageOk(m, b);
    }
  }

  lemma PoolList(m: Memory, id: Id, k: nat, s': State, m': Memory)
    requires Layout(m) && Pools(m, id, k, s', m')
    ensures ListOk(m') && PoolOk(m') && ChainsOk(m')
  {
    assert m.home[m.serial[k]].spot == InHand(id, k);
  }

  lemma PoolKeeps(m: Memory, id: Id, k: nat, s': State, m': Memory)
    requires Layout(m) && Pools(m, id, k, s', m')
    ensures Layout(m')
  {
    PoolPages(m, id, k, s', m');
    PoolList(m, id, k, s', m');
    RehomeKeepsRuns(m.home, m'.home, m.left);
  }

  lemma FreeKeeps(m: Memory, id: Id, k: nat, s': State)
    requires Layout(m) && LetsGo(m, id, k, s') && m.serial[k] in m.home
    ensures Layout(Free(m, m.serial[k]).(s := s'))
  {
    var a := m.serial[k];
    var m' := Free(m, a).(s := s');
    assert PageOk(m, a);
    FreeKeepsRuns(m, a);
    forall b | b in m'.home
      ensures PageOk(m', b)
    {
      assert PageOk(m, b);
      if m.home[b].run.Some? {
        FreeKeepsTags(m, a, b);
      }
    }
  }

  lemma RecycleKeeps(m: Memory, id: Id, k: nat, s': State)
    requires Layout(m) && LetsGo(m, id, k, s')
    ensures m.serial[k] in m.home
    ensures Layout(Recycle(m, m.serial[k]).(s := s'))
  {
    if m.home[m.serial[k]].run.None? && m.pool.None? {
      PoolKeeps(m, id, k, s', Recycle(m, m.serial[k]).(s := s'));
    } else {
      FreeKeeps(m, id, k, s');
    }
  }

  lemma SameStatusKeeps(m: Memory, s': State)
    requires Layout(m) && |s'.ops| == |m.s.ops| && |s'.blocks| == |m.s.blocks|
    requires forall k :: 0 <= k < |s'.blocks| ==> s'.blocks[k].status == m.s.blocks[k].status
    ensures Layout(m.(s := s'))
  {
    forall a | a in m.home
      ensures PageOk(m.(s := s'), a)
    {
      assert PageOk(m, a);
    }
  }

  // ---------- growing a chain ----------

  /** Growing only appends, reaches the requested capacity, and never overshoots by a page. */
  lemma GrowFits(m: Memory, id: Id, size: nat, g: Grant)
    requires id < |m.chains| && m.s.L > 0 && Grants(m, id, size, g)
    ensures var before, after := m.chains[id], Grow(m, id, size, g).chains[id];
            && before <= after && size <= Base(m.s.L, |after|)
            && (before < after ==> Base(m.s.L, |after| - 1) < size)
            && |after| == (if |before| < PagesFor(m.s.L, size) then PagesFor(m.s.L, size) else |before|)
  {
    var m1 := TakePool(m, id, size);
    var n, L := |m1.chains[id]|, m.s.L;
    var short := SatSub(size, Base(L, n));
    PagesForIsExact(L, short);
    BaseAdd(L, n, |g.pages|);
    if |g.pages| > 0 {
      BaseAdd(L, n, |g.pages| - 1);
    }
    FewestPages(L, size, |m.chains[id]|, n + |g.pages|);
  }

  /** A chain that is too short takes the pooled page first; otherwise the pool is left alone. */
  lemma GrowTakesPool(m: Memory, id: Id, size: nat, g: Grant)
    requires id < |m.chains| && m.s.L > 0 && Grants(m, id, size, g)
    ensures var before, m' := m.chains[id], Grow(m, id, size, g);
            if Base(m.s.L, |before|) < size && m.pool.Some?
            then m'.pool == None && |before| < |m'.chains[id]| && m'.chains[id][|before|] == m.pool.value
            else m'.pool == m.pool
  {
  }

  /** A chain that grew only as far as it had to has the fewest pages, or none was lacking. */
  lemma FewestPages(L: nat, size: nat, before: nat, after: nat)
    requires L > 0 && before <= after && size <= Base(L, after)
    requires before < after ==> Base(L, after - 1) < size
    ensures after == if before < PagesFor(L, size) then PagesFor(L, size) else before
  {
    var n := PagesFor(L, size);
    PagesForIsExact(L, size);
    if after < n {
      BaseMono(L, after, n - 1);
    } else if n < after && before < after {
      BaseMono(L, n, after - 1);
    }
  }

  lemma GrowKeeps(m: Memory, id: Id, size: nat, g: Grant)
    requires Layout(m) && id < |m.chains| && m.s.L > 0 && Grants(m, id, size, g)
    ensures Layout(Grow(m, id, size, g)) && Grow(m, id, size, g).s == m.s
    ensures |Grow(m, id, size, g).chains| == |m.chains|
    ensures forall j :: 0 <= j < |m.chains| && j != id ==> Grow(m, id, size, g).chains[j] == m.chains[j]
  {
    TakePoolKeeps(m, id, size);
    AllocateKeeps(TakePool(m, id, size), id, g);
  }

  lemma PLoadFits(m: Memory, id: Id, g: Grant)
    requires MemInv(m) && id < |m.s.ops| == |m.chains| && m.s.ops[id].PLoad?
    requires m.s.L > 0 && Grants(m, id, Request(m.s, id), g)
    ensures ChainFits(StepPLoad(m.s, id).ops[id], |Grow(m, id, Request(m.s, id), g).chains[id]|)
  {
    GrowFits(m, id, Request(m.s, id), g);
    var n := |Grow(m, id, Request(m.s, id), g).chains[id]|;
    assert ChainFits(m.s.ops[id], |m.chains[id]|);
    if n > 0 {
      BaseGrows(m.s.L, n - 1);
    }
  }

  lemma PLoopFits(m: Memory, id: Id, c: Choice, g: Grant)
    requires id < |m.s.ops| == |m.chains| && m.s.ops[id].PLoop?
    requires Fits(m) && CanStep(m, Run(id, c), g)
    ensures ChainFits(StepPLoop(m.s, id, c).ops[id], |Grow(m, id, Request(m.s, id), g).chains[id]|)
  {
    var op := m.s.ops[id];
    assert ChainFits(op, |m.chains[id]|);
    GrowFits(m, id, Request(m.s, id), g);
  }

  // ---------- every memory step keeps the invariant ----------

  /** The ops whose next step moves pages. */
  predicate MovesPages(s: State, op: Op) {
    || op.PLoad? || op.PLoop?
    || (op.PInit? && s.phead.Zero?)
    || (op.PFill? && op.fpc.StoreRoot?)
    || (op.PWrite? && op.wpc.Pick? && op.done >= |op.items|)
    || (op.CIter? && (op.ipc.Consume? || op.ipc.Reclaim?))
  }

  lemma PopLeavesBlocks(s: State, id: Id, c: Choice)
    requires id < |s.ops| && !PushOp(s.ops[id]) && !MovesPages(s, s.ops[id])
    ensures Act(s, id, c).blocks == s.blocks
  {
  }

  lemma LeavesBlocks(s: State, id: Id, c: Choice)
    requires id < |s.ops| && !MovesPages(s, s.ops[id])
    ensures Act(s, id, c).blocks == s.blocks
  {
    if !PushOp(s.ops[id]) {
      PopLeavesBlocks(s, id, c);
    } else if !s.ops[id].PInit? {
      PushLeavesBlocks(s, id, c);
    }
  }

  lemma PushFits(s: State, id: Id, c: Choice, n: nat)
    requires id < |s.ops| && PushOp(s.ops[id]) && !MovesPages(s, s.ops[id])
    requires ChainFits(s.ops[id], n) && !Act(s, id, c).ops[id].Fault?
    ensures ChainFits(Act(s, id, c).ops[id], n)
  {
    if s.ops[id].PTry? {
      TryFits(s, id, c, n);
    } else if s.ops[id].PWrite? {
      WriteFits(s, id, c);
    }
  }

  lemma TryFits(s: State, id: Id, c: Choice, n: nat)
    requires id < |s.ops| && s.ops[id].PTry? && ChainFits(s.ops[id], n) && !StepPTry(s, id, c).ops[id].Fault?
    ensures ChainFits(StepPTry(s, id, c).ops[id], n)
  {
  }

  lemma WriteFits(s: State, id: Id, c: Choice)
    requires id < |s.ops| && s.ops[id].PWrite? && !MovesPages(s, s.ops[id]) && !Act(s, id, c).ops[id].Fault?
    ensures Act(s, id, c).ops[id].PWrite?
  {
  }

  lemma IterFits(s: State, id: Id, c: Choice)
    requires id < |s.ops| && s.ops[id].CIter?
    ensures ChainFits(Act(s, id, c).ops[id], 0)
  {
    match s.ops[id].ipc
    case Read => assert ChainFits(StepRead(s, id).ops[id], 0);
    case Follow => assert ChainFits(StepFollow(s, id).ops[id], 0);
    case Consume(_) => assert ChainFits(StepConsume(s, id).ops[id], 0);
    case Reclaim(_) => assert ChainFits(StepReclaim(s, id).ops[id], 0);
  }

  lemma WalkFits(s: State, id: Id)
    requires id < |s.ops| && s.ops[id].CWalk?
    ensures s.ops[id].cpc.Move? ==> ChainFits(StepCMove(s, id).ops[id], 0)
    ensures !s.ops[id].cpc.Move? ==> ChainFits(StepCNext(s, id).ops[id], 0)
  {
  }

  lemma ClaimFits(s: State, id: Id, c: Choice)
    requires id < |s.ops| && (s.ops[id].CWalk? || s.ops[id].CWalkLoad? || s.ops[id].CRecheck?)
    ensures ChainFits(Act(s, id, c).ops[id], 0)
  {
    if s.ops[id].CWalk? {
      WalkFits(s, id);
    } else if s.ops[id].CRecheck? {
      assert ChainFits(StepCRecheck(s, id).ops[id], 0);
    }
  }

  lemma PopFits(s: State, id: Id, c: Choice)
    requires id < |s.ops| && !PushOp(s.ops[id]) && !s.ops[id].CIter?
    requires !s.ops[id].CWalk? && !s.ops[id].CWalkLoad? && !s.ops[id].CRecheck?
    ensures ChainFits(Act(s, id, c).ops[id], 0)
  {
    if s.ops[id].CTry? {
      assert ChainFits(StepCTry(s, id, c).ops[id], 0);
    } else if s.ops[id].CLoop? {
      assert ChainFits(StepCLoop(s, id).ops[id], 0);
    }
  }

  /** A step that moves no page. */
  lemma QuietKeeps(m: Memory, id: Id, c: Choice, g: Grant)
    requires MemInv(m) && CanStep(m, Run(id, c), g) && !MovesPages(m.s, m.s.ops[id])
    ensures MemInv(MemoryStep(m, Run(id, c), g))
  {
    var s' := Act(m.s, id, c);
    StepKeeps(m.s, Run(id, c));
    LeavesBlocks(m.s, id, c);
    SameStatusKeeps(m, s');
    assert OpOk(s', id, s'.ops[id]);
    assert ChainFits(m.s.ops[id], |m.chains[id]|);
    if PushOp(m.s.ops[id]) {
      PushFits(m.s, id, c, |m.chains[id]|);
    } else if m.s.ops[id].CIter? {
      IterFits(m.s, id, c);
    } else if m.s.ops[id].CWalk? || m.s.ops[id].CWalkLoad? || m.s.ops[id].CRecheck? {
      ClaimFits(m.s, id, c);
    } else {
      PopFits(m.s, id, c);
    }
  }

  lemma GrowStepKeeps(m: Memory, id: Id, c: Choice, g: Grant)
    requires MemInv(m) && CanStep(m, Run(id, c), g) && (m.s.ops[id].PLoad? || m.s.ops[id].PLoop?)
    ensures MemInv(MemoryStep(m, Run(id, c), g))
  {
    var s' := Act(m.s, id, c);
    StepKeeps(m.s, Run(id, c));
    var m1 := Grow(m, id, Request(m.s, id), g);
    GrowKeeps(m, id, Request(m.s, id), g);
    PushLeavesBlocks(m.s, id, c);
    SameStatusKeeps(m1, s');
    if m.s.ops[id].PLoad? {
      PLoadFits(m, id, g);
    } else {
      PLoopFits(m, id, c, g);
    }
  }

  lemma FirstLinks(m: Memory, id: Id)
    requires MemInv(m) && id < |m.s.ops| == |m.chains| && m.s.ops[id].PInit? && m.s.phead.Zero?
    ensures Links(m, id, StepPInit(m.s, id))
  {
    assert ChainFits(m.s.ops[id], |m.chains[id]|);
    assert StepPInit(m.s, id).blocks == [Block(None, 0, Live)];
  }

  lemma RootLinks(m: Memory, id: Id)
    requires MemInv(m) && id < |m.s.ops| == |m.chains| && m.s.ops[id].PFill? && m.s.ops[id].fpc.StoreRoot?
    ensures Links(m, id, StepPLink(m.s, id)) && StepPLink(m.s, id).ops[id].PFill? && StepPLink(m.s, id).ops[id].f.root == 0
  {
    assert ChainFits(m.s.ops[id], |m.chains[id]|);
    assert OpOk(m.s, id, m.s.ops[id]);
    FillLive(m.s, id);
    LinkShape(m.s, m.s.ops[id].f.root);
  }

  lemma FirstLinkKeeps(m: Memory, id: Id, g: Grant)
    requires MemInv(m) && id < |m.s.ops| == |m.chains| && m.s.ops[id].PInit? && m.s.phead.Zero?
    ensures Layout(Effect(m, id, g).(s := StepPInit(m.s, id))) && Fits(Effect(m, id, g).(s := StepPInit(m.s, id)))
  {
    FirstLinks(m, id);
    LinkChainKeeps(m, id, StepPInit(m.s, id));
  }

  lemma RootLinkKeeps(m: Memory, id: Id, g: Grant)
    requires MemInv(m) && id < |m.s.ops| == |m.chains| && m.s.ops[id].PFill? && m.s.ops[id].fpc.StoreRoot?
    ensures Layout(Effect(m, id, g).(s := StepPLink(m.s, id))) && Fits(Effect(m, id, g).(s := StepPLink(m.s, id)))
  {
    RootLinks(m, id);
    LinkChainKeeps(m, id, StepPLink(m.s, id));
    RootLinkFits(m, id, g);
  }

  lemma RootLinkFits(m: Memory, id: Id, g: Grant)
    requires Fits(m) && id < |m.s.ops| == |m.chains| && m.s.ops[id].PFill? && m.s.ops[id].fpc.StoreRoot?
    requires StepPLink(m.s, id).ops[id].PFill? && StepPLink(m.s, id).ops[id].f.root == 0
    ensures Fits(Effect(m, id, g).(s := StepPLink(m.s, id)))
  {
    var s' := StepPLink(m.s, id);
    forall j | 0 <= j < |s'.ops| ensures ChainFits(s'.ops[j], |m.chains[id := []][j]|) {
      assert ChainFits(m.s.ops[j], |m.chains[j]|);
    }
  }

  lemma LinkStepKeeps(m: Memory, id: Id, c: Choice, g: Grant)
    requires MemInv(m) && CanStep(m, Run(id, c), g)
    requires (m.s.ops[id].PInit? && m.s.phead.Zero?) || (m.s.ops[id].PFill? && m.s.ops[id].fpc.StoreRoot?)
    ensures MemInv(MemoryStep(m, Run(id, c), g))
  {
    StepKeeps(m.s, Run(id, c));
    if m.s.ops[id].PInit? {
      FirstLinkKeeps(m, id, g);
    } else {
      RootLinkKeeps(m, id, g);
    }
  }

  lemma DropStepKeeps(m: Memory, id: Id, c: Choice, g: Grant)
    requires MemInv(m) && CanStep(m, Run(id, c), g)
    requires m.s.ops[id].PWrite? && m.s.ops[id].wpc.Pick? && m.s.ops[id].done >= |m.s.ops[id].items|
    ensures MemInv(MemoryStep(m, Run(id, c), g))
  {
    StepKeeps(m.s, Run(id, c));
    DropChainKeeps(m, id);
    SameStatusKeeps(DropChain(m, id), Act(m.s, id, c));
  }

  lemma ConsumeLayout(m: Memory, id: Id, g: Grant)
    requires MemInv(m) && id < |m.s.ops| == |m.chains| && m.s.ops[id].CIter? && m.s.ops[id].ipc.Consume?
    ensures Layout(Effect(m, id, g).(s := StepConsume(m.s, id))) && Effect(m, id, g).chains == m.chains
  {
    var s' := StepConsume(m.s, id);
    ConsumeCount(m.s, id);
    var k := m.s.ops[id].ipc.block;
    if m.s.blocks[k].consumed + m.s.ops[id].it.pending == m.s.L {
      assert m.serial[k] in m.home;
      HoldKeeps(m, id, k, s', Effect(m, id, g).(s := s'));
    } else {
      SameStatusKeeps(m, s');
    }
  }

  lemma ConsumeStepKeeps(m: Memory, id: Id, c: Choice, g: Grant)
    requires MemInv(m) && CanStep(m, Run(id, c), g) && m.s.ops[id].CIter? && m.s.ops[id].ipc.Consume?
    ensures MemInv(MemoryStep(m, Run(id, c), g))
  {
    StepKeeps(m.s, Run(id, c));
    IterFits(m.s, id, c);
    ConsumeLayout(m, id, g);
    assert ChainFits(m.s.ops[id], |m.chains[id]|);
  }

  lemma ReclaimStepKeeps(m: Memory, id: Id, c: Choice, g: Grant)
    requires MemInv(m) && CanStep(m, Run(id, c), g) && m.s.ops[id].CIter? && m.s.ops[id].ipc.Reclaim?
    ensures MemInv(MemoryStep(m, Run(id, c), g))
  {
    StepKeeps(m.s, Run(id, c));
    assert OpOk(m.s, id, m.s.ops[id]);
    assert ChainFits(m.s.ops[id], |m.chains[id]|);
    RecycleKeeps(m, id, m.s.ops[id].ipc.block, StepReclaim(m.s, id));
  }

  lemma StartKeeps(m: Memory, call: Call, g: Grant)
    requires MemInv(m) && CanStep(m, Start(call), g)
    ensures MemInv(MemoryStep(m, Start(call), g))
  {
    var m' := MemoryStep(m, Start(call), g);
    StepKeeps(m.s, Start(call));
    forall a | a in m'.home
      ensures PageOk(m', a)
    {
      assert PageOk(m, a);
    }
    forall id, a | 0 <= id < |m'.chains| && a in m'.chains[id]
      ensures a in m'.home && m'.home[a].spot == Chained(id)
    {
      assert id < |m.chains| && a in m.chains[id];
    }
  }

  lemma MemoryStepKeeps(m: Memory, step: Step, g: Grant)
    requires MemInv(m) && CanStep(m, step, g)
    ensures MemInv(MemoryStep(m, step, g))
  {
    match step
    case Start(call) => StartKeeps(m, call, g);
    case Forget(producers) =>
      StepKeeps(m.s, step);
      SameStatusKeeps(m, Apply(m.s, step));
    case Run(id, c) =>
      var op := m.s.ops[id];
      if !MovesPages(m.s, op) {
        QuietKeeps(m, id, c, g);
      } else if op.PLoad? || op.PLoop? {
        GrowStepKeeps(m, id, c, g);
      } else if op.PInit? || op.PFill? {
        LinkStepKeeps(m, id, c, g);
      } else if op.PWrite? {
        DropStepKeeps(m, id, c, g);
      } else if op.ipc.Consume? {
        ConsumeStepKeeps(m, id, c, g);
      } else {
        ReclaimStepKeeps(m, id, c, g);
      }
  }

  // ---------- what holds in every run ----------

  ghost predicate MemoryNext(m: Memory, m': Memory) {
    exists step, g :: CanStep(m, step, g) && m' == MemoryStep(m, step, g)
  }

  ghost predicate IsMemoryRun(run: seq<Memory>) {
    && |run| > 0 && InitialMemory(run[0])
    && forall i :: 0 < i < |run| ==> MemoryNext(run[i - 1], run[i])
  }

  lemma {:induction false} MemoryRunKeeps(run: seq<Memory>, i: nat)
    requires IsMemoryRun(run) && i < |run|
    ensures MemInv(run[i])
  {
    if i == 0 {
      InitialOk(run[0].s);
    } else {
      MemoryRunKeeps(run, i - 1);
      assert MemoryNext(run[i - 1], run[i]);
      var step, g :| CanStep(run[i - 1], step, g) && run[i] == MemoryStep(run[i - 1], step, g);
      MemoryStepKeeps(run[i - 1], step, g);
    }
  }

  // ---------- every run of the protocol has its memory ----------

  lemma {:induction false} Above(keys: set<nat>) returns (b: nat)
    ensures forall a :: a in keys ==> a < b
    decreases |keys|
  {
    if keys == {} {
      b := 0;
    } else {
      var k :| k in keys;
      b := Above(keys - {k});
      b := if b <= k then k + 1 else b;
      assert forall a :: a in keys ==> a == k || a in keys - {k};
    }
  }

  /** The allocator can serve every step of the protocol that asks for the right chain. */
  lemma GrantExists(m: Memory, step: Step) returns (g: Grant)
    requires MemInv(m) && Enabled(m.s, step) && m.s.L > 0 && Exact(m.s, step)
    ensures CanStep(m, step, g)
  {
    var a := Above(m.home.Keys);
    var r := Above(m.left.Keys);
    if step.Run? {
      var id, size := step.id, Request(m.s, step.id);
      g := Grant(seq(Lacking(TakePool(m, id, size), id, size), i requires i >= 0 => a + i), r);
      assert Grants(m, id, size, g);
      GrowFits(m, id, size, g);
      assert ChainFits(m.s.ops[id], |m.chains[id]|);
    } else {
      g := Grant([], r);
    }
  }

  ghost predicate ExactNext(s: State, s': State) {
    s.L > 0 && exists step :: Enabled(s, step) && Exact(s, step) && s' == Apply(s, step)
  }

  /** A run in which every chain grows as `grow_to_fit_with` grows it. */
  ghost predicate IsExactRun(run: seq<State>) {
    && |run| > 0 && Initial(run[0])
    && forall i :: 0 < i < |run| ==> ExactAt(run, i)
  }

  ghost predicate ExactAt(run: seq<State>, i: nat) {
    0 < i < |run| && ExactNext(run[i - 1], run[i])
  }

  lemma ExactPrefix(run: seq<State>, n: nat)
    requires IsExactRun(run) && 0 < n < |run|
    ensures IsExactRun(run[..n]) && ExactNext(run[n - 1], run[n])
  {
    assert ExactAt(run, n);
    forall i | 0 < i < n ensures ExactAt(run[..n], i) {
      assert ExactAt(run, i);
    }
  }

  lemma StepLifts(m: Memory, s': State) returns (m': Memory)
    requires MemInv(m) && ExactNext(m.s, s')
    ensures MemoryNext(m, m') && m'.s == s'
  {
    var step :| Enabled(m.s, step) && Exact(m.s, step) && s' == Apply(m.s, step);
    var g := GrantExists(m, step);
    m' := MemoryStep(m, step, g);
  }

  lemma MemoryRunGrows(mem: seq<Memory>, m: Memory)
    requires IsMemoryRun(mem) && MemoryNext(mem[|mem| - 1], m)
    ensures IsMemoryRun(mem + [m])
  {
    var mem' := mem + [m];
    forall i | 0 < i < |mem'| ensures MemoryNext(mem'[i - 1], mem'[i]) {
      assert i < |mem| ==> mem'[i] == mem[i];
    }
  }

  /** Every such run of the protocol is the protocol part of a memory run. */
  lemma {:induction false} RunLifts(run: seq<State>) returns (mem: seq<Memory>)
    requires IsExactRun(run)
    ensures IsMemoryRun(mem) && |mem| == |run|
    ensures forall i :: 0 <= i < |run| ==> mem[i].s == run[i]
  {
    var n := |run| - 1;
    if n == 0 {
      mem := [Memory(run[0], map[], [], [], None, map[])];
    } else {
      ExactPrefix(run, n);
      var before := RunLifts(run[..n]);
      MemoryRunKeeps(before, n - 1);
      var m := StepLifts(before[n - 1], run[n]);
      mem := before + [m];
      MemoryRunGrows(before, m);
    }
  }

  /** The places in which the list, the pool, the chains and the calls in progress mention page `a`. */
  ghost predicate Mentions(m: Memory, a: Addr, spot: Spot) {
    match spot
    case Linked(k) => k < |m.serial| && k < |m.s.blocks| && m.serial[k] == a && m.s.blocks[k].status.Live?
    case Pooled => m.pool == Some(a)
    case Chained(id) => id < |m.chains| && a in m.chains[id]
    case InHand(id, k) => k < |m.serial| && k < |m.s.blocks| && m.serial[k] == a && m.s.blocks[k].status == Held(id)
  }

  /** Every live page is in exactly one place, and no other page is in any. */
  lemma InExactlyOnePlace(run: seq<Memory>, i: nat, a: Addr)
    requires IsMemoryRun(run) && i < |run|
    ensures a in run[i].home ==> forall spot :: Mentions(run[i], a, spot) <==> spot == run[i].home[a].spot
    ensures a !in run[i].home ==> forall spot :: !Mentions(run[i], a, spot)
  {
    var m := run[i];
    MemoryRunKeeps(run, i);
    assert a in m.home ==> PageOk(m, a);
    forall spot | Mentions(m, a, spot)
      ensures a in m.home && spot == m.home[a].spot
    {
    }
  }

  /** A run descriptor is live exactly while one of its pages is, and counts its live pages. */
  lemma DescriptorOutlivesPages(run: seq<Memory>, i: nat, r: RunId)
    requires IsMemoryRun(run) && i < |run|
    ensures r in run[i].left <==> Members(run[i].home, r) != {}
    ensures r in run[i].left ==> run[i].left[r] == |Members(run[i].home, r)|
  {
    var m := run[i];
    MemoryRunKeeps(run, i);
    if Members(m.home, r) != {} {
      var a :| a in Members(m.home, r);
      assert PageOk(m, a);
    }
  }

  /** A page changes hands only through its owner: what a call is about to pool or free is live
      and in its hands, what it is about to complete is live and linked, and its chain consists
      of distinct live pages that are its own.  So nothing is freed twice. */
  lemma FreedByItsOwner(run: seq<Memory>, i: nat, id: Id)
    requires IsMemoryRun(run) && i < |run| && id < |run[i].s.ops|
    ensures var m, op := run[i], run[i].s.ops[id];
            && (op.CIter? && op.ipc.Reclaim? ==> HasSpot(m, op.ipc.block, InHand(id, op.ipc.block)))
            && (op.CIter? && op.ipc.Consume? ==> HasSpot(m, op.ipc.block, Linked(op.ipc.block)))
            && id < |m.chains| && Distinct(m.chains[id])
            && forall a :: a in m.chains[id] ==> a in m.home && m.home[a].spot == Chained(id)
  {
    var m, op := run[i], run[i].s.ops[id];
    MemoryRunKeeps(run, i);
    assert OpOk(m.s, id, op);
    if op.CIter? && op.ipc.Consume? {
      IterLive(m.s, id, op.ipc.block, op.it.start + |op.it.got| - 1);
    }
  }

  /** What becomes of a completed block: it stays allocated, as the pooled page, exactly if it
      stands alone and the pool is empty, and is freed otherwise; no other page is touched. */
  lemma ReclaimedPage(run: seq<Memory>, i: nat, id: Id, g: Grant)
    requires IsMemoryRun(run) && i < |run| && id < |run[i].s.ops| == |run[i].chains|
    requires run[i].s.ops[id].CIter? && run[i].s.ops[id].ipc.Reclaim?
    ensures var k, m, m' := run[i].s.ops[id].ipc.block, run[i], Effect(run[i], id, g);
            && k < |m.serial| && m.serial[k] in m.home
            && (m.serial[k] in m'.home <==> m.home[m.serial[k]].run.None? && m.pool.None?)
            && m'.pool == (if m.serial[k] in m'.home then Some(m.serial[k]) else m.pool)
            && m'.home - {m.serial[k]} == m.home - {m.serial[k]}
  {
    FreedByItsOwner(run, i, id);
    RecycledPage(run[i], run[i].serial[run[i].s.ops[id].ipc.block]);
  }

  lemma RecycledPage(m: Memory, a: Addr)
    requires a in m.home
    ensures var m' := Recycle(m, a);
            && (a in m'.home <==> m.home[a].run.None? && m.pool.None?)
            && m'.pool == (if a in m'.home then Some(a) else m.pool)
            && m'.home - {a} == m.home - {a}
  {
  }

  /** The page of block `k` is live and in this place. */
  predicate HasSpot(m: Memory, k: nat, spot: Spot) {
    k < |m.serial| && m.serial[k] in m.home && m.home[m.serial[k]].spot == spot
  }

  /** At quiescence no page is stranded: each is linked at or behind `chead`, or pooled, so
      that dropping the queue frees them all. */
  lemma NothingLeaks(run: seq<Memory>, i: nat, a: Addr)
    requires IsMemoryRun(run) && i < |run| && Quiescent(run[i].s) && a in run[i].home
    ensures var m := run[i];
            || m.pool == Some(a)
            || (exists k :: 0 <= k < |m.serial| && m.serial[k] == a && m.s.chead.At? && m.s.chead.block <= k)
  {
    var m := run[i];
    MemoryRunKeeps(run, i);
    assert PageOk(m, a);
    var spot := m.home[a].spot;
    assert spot.InHand? ==> BlockOk(m.s, spot.k);
    assert spot.InHand? ==> Finished(m.s.ops[spot.id]);
    if spot.Linked? {
      QuietCounters(m.s, spot.k);
    }
  }
}
