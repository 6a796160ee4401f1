/** adjustContainerResourceRequirements in its own form: nested loops over two maps changed in place. */
module ResourceFitting {
  import opened Api
  import opened Rounding
  import opened LimitRanges

  function Flatten(limitRanges: seq<seq<Item>>): (items: seq<Item>)
  {
    if limitRanges == [] then [] else limitRanges[0] + Flatten(limitRanges[1..])
  }

  function BoundsIn(item: Item, name: Resource): (b: Bounds)
  {
    Bounds(Get(item.min, name), Get(item.max, name), Get(item.ratio, name))
  }

  class Requirements {
    var requests: map<Resource, int>
    var limits: map<Resource, int>

    constructor (requests: map<Resource, int>, limits: map<Resource, int>)
      ensures this.requests == requests && this.limits == limits
    {
      this.requests, this.limits := requests, limits;
    }

    ghost function View(name: Resource): (a: Ask)
      reads this
    {
      Ask(Get(requests, name), Get(limits, name))
    }

    /** The body of the loop over both lists: raise to Min, then check the old value against Max. */
    static method RaiseAndCheck(list: map<Resource, int>, item: Item, name: Resource)
      returns (raised: map<Resource, int>, errors: nat)
      ensures Get(raised, name) == Raised(Get(list, name), Get(item.min, name))
      ensures forall other :: other != name ==> Get(raised, other) == Get(list, other)
      ensures errors == Excess(Get(list, name), Get(item.max, name))
    {
      raised, errors := list, 0;
      if name in list {
        var value := list[name];
        if name in item.min && value < item.min[name] {
          raised := raised[name := item.min[name]];
        }
        if name in item.max && value > item.max[name] {
          errors := 1;
        }
      }
    }

    method FixRatio(item: Item, name: Resource)
      modifies this`requests
      ensures View(name) ==
              if name in item.ratio && old(View(name)).request.Some? && old(View(name)).limit.Some?
              then old(View(name)).(request :=
                     Some(RatioFix(old(View(name)).request.value, old(View(name)).limit.value, item.ratio[name])))
              else old(View(name))
      ensures forall other :: other != name ==> View(other) == old(View(other))
    {
      if name in item.ratio && name in requests && name in limits {
        var observed := QuoMilliRoundHalfDown(MilliValue(limits[name]), MilliValue(requests[name]));
        if observed > MilliValue(item.ratio[name]) {
          var res := QuoMilliRoundHalfDown(MilliValue(limits[name]), MilliValue(item.ratio[name]));
          requests := requests[name := res * MILLI];
        }
      }
    }

    /** One item, one resource. */
    method AdjustOne(item: Item, name: Resource) returns (errors: nat)
      modifies this
      ensures View(name) == Fit(old(View(name)), BoundsIn(item, name))
      ensures forall other :: other != name ==> View(other) == old(View(other))
      ensures var b := BoundsIn(item, name);
              errors == Excess(old(View(name)).request, b.max) + Excess(old(View(name)).limit, b.max)
    {
      var requestErrors, limitErrors;
      requests, requestErrors := RaiseAndCheck(requests, item, name);
      limits, limitErrors := RaiseAndCheck(limits, item, name);
      FixRatio(item, name);
      return requestErrors + limitErrors;
    }

    /** What is still to come for one resource, seen from its present request and limit. */
    ghost function Final(name: Resource, rest: seq<Item>): (a: Ask)
      reads this
    {
      FitAll(View(name), BoundsOn(rest, name))
    }

    ghost function Pending(rest: seq<Item>): (n: nat)
      reads this
    {
      Errors(View(Memory), BoundsOn(rest, Memory)) + Errors(View(Cpu), BoundsOn(rest, Cpu))
    }

    method AdjustItem(item: Item, ghost rest: seq<Item>) returns (errors: nat)
      modifies this
      ensures Final(Memory, rest) == old(Final(Memory, [item] + rest))
      ensures Final(Cpu, rest) == old(Final(Cpu, [item] + rest))
      ensures errors + Pending(rest) == old(Pending([item] + rest))
      ensures forall name: Resource :: name.OtherResource? ==> View(name) == old(View(name))
    {
      BoundsOnHead(item, rest, Memory);
      BoundsOnHead(item, rest, Cpu);
      if !Applies(item) {
        return 0;
      }
      var memoryErrors := AdjustOne(item, Memory);
      var cpuErrors := AdjustOne(item, Cpu);
      return memoryErrors + cpuErrors;
    }

    lemma ByItems(limitRanges: seq<seq<Item>>)
      ensures SaneRanges(limitRanges) && FineAsk(View(Memory)) && FineAsk(View(Cpu)) ==>
                var items := Flatten(limitRanges);
                && Fitted(limitRanges, Memory, View(Memory), FitAll(View(Memory), BoundsOn(items, Memory)))
                && Fitted(limitRanges, Cpu, View(Cpu), FitAll(View(Cpu), BoundsOn(items, Cpu)))
    {
      if SaneRanges(limitRanges) && FineAsk(View(Memory)) && FineAsk(View(Cpu)) {
        FittedByItems(limitRanges, Memory, View(Memory));
        FittedByItems(limitRanges, Cpu, View(Cpu));
      }
    }

    /** The whole adjustment is the fold of Fit over the items of all LimitRanges, per resource. */
    method Adjust(limitRanges: seq<seq<Item>>) returns (errors: nat)
      modifies this
      ensures View(Memory) == FitAll(old(View(Memory)), BoundsOn(Flatten(limitRanges), Memory))
      ensures View(Cpu) == FitAll(old(View(Cpu)), BoundsOn(Flatten(limitRanges), Cpu))
      ensures errors == Errors(old(View(Memory)), BoundsOn(Flatten(limitRanges), Memory))
                        + Errors(old(View(Cpu)), BoundsOn(Flatten(limitRanges), Cpu))
      ensures forall name: Resource :: name.OtherResource? ==> View(name) == old(View(name))
      ensures SaneRanges(limitRanges) && FineAsk(old(View(Memory))) && FineAsk(old(View(Cpu))) ==>
                && Fitted(limitRanges, Memory, old(View(Memory)), View(Memory))
                && Fitted(limitRanges, Cpu, old(View(Cpu)), View(Cpu))
    {
      ByItems(limitRanges);
      errors := 0;
      ghost var all := Flatten(limitRanges);
      ghost var rest := all;
      for i := 0 to |limitRanges|
        invariant rest == Flatten(limitRanges[i..])
        invariant Final(Memory, rest) == old(Final(Memory, all)) && Final(Cpu, rest) == old(Final(Cpu, all))
        invariant errors + Pending(rest) == old(Pending(all))
        invariant forall name: Resource :: name.OtherResource? ==> View(name) == old(View(name))
      {
        var items := limitRanges[i];
        ghost var tail := Flatten(limitRanges[i + 1..]);
        assert limitRanges[i..][0] == items && limitRanges[i..][1..] == limitRanges[i + 1..];
        for j := 0 to |items|
          invariant rest == items[j..] + tail
          invariant Final(Memory, rest) == old(Final(Memory, all)) && Final(Cpu, rest) == old(Final(Cpu, all))
          invariant errors + Pending(rest) == old(Pending(all))
          invariant forall name: Resource :: name.OtherResource? ==> View(name) == old(View(name))
        {
          assert rest == [items[j]] + rest[1..] && rest[1..] == items[j + 1..] + tail;
          rest := rest[1..];
          var more := AdjustItem(items[j], rest);
          errors := errors + more;
        }
        assert rest == tail;
      }
    }
  }

  lemma BoundsOnHead(item: Item, rest: seq<Item>, name: Resource)
    ensures BoundsOn([item] + rest, name) ==
            (if Applies(item) then [BoundsIn(item, name)] else []) + BoundsOn(rest, name)
    ensures !Applies(item) ==> BoundsOn([item] + rest, name) == BoundsOn(rest, name)
    ensures Applies(item) ==>
              && BoundsOn([item] + rest, name)[0] == BoundsIn(item, name)
              && BoundsOn([item] + rest, name)[1..] == BoundsOn(rest, name)
  {
  }

  // ---------------------------------------------------------------- the exposer's container

  const EXPOSER_CPU := Ask(Some(5 * MILLI), Some(100 * MILLI))
  const EXPOSER_MEMORY := Ask(Some(50 * 1024 * 1024 * ONE), Some(50 * 1024 * 1024 * ONE))

  /** The errors the LimitRanges of a namespace raise against the container. */
  function Refusals(limitRanges: seq<seq<Item>>): (n: nat)
  {
    var items := Flatten(limitRanges);
    Errors(EXPOSER_MEMORY, BoundsOn(items, Memory)) + Errors(EXPOSER_CPU, BoundsOn(items, Cpu))
  }

  /** The container asks for 5m of CPU and 50Mi of memory, with limits of 100m and 50Mi, and is fitted. */
  method FitExposer(limitRanges: seq<seq<Item>>)
    returns (errors: nat, requests: map<Resource, int>, limits: map<Resource, int>)
    ensures errors == Refusals(limitRanges)
    ensures SaneRanges(limitRanges) ==>
              && (errors > 0 <==> Unfittable(limitRanges))
              && Fitted(limitRanges, Cpu, Ask(Some(5 * MILLI), Some(100 * MILLI)),
                        Ask(Get(requests, Cpu), Get(limits, Cpu)))
              && Fitted(limitRanges, Memory, Ask(Some(52_428_800 * ONE), Some(52_428_800 * ONE)),
                        Ask(Get(requests, Memory), Get(limits, Memory)))
    ensures limitRanges == [] ==>
              && Get(requests, Cpu) == Some(5 * MILLI) && Get(limits, Cpu) == Some(100 * MILLI)
              && Get(requests, Memory) == Get(limits, Memory) == Some(52_428_800 * ONE)
  {
    assert SaneRanges(limitRanges) ==> (Refusals(limitRanges) > 0 <==> Unfittable(limitRanges)) by {
      if SaneRanges(limitRanges) {
        RefusedIff(limitRanges);
      }
    }
    requests := map[Cpu := 5 * MILLI, Memory := 50 * 1024 * 1024 * ONE];
    limits := map[Cpu := 100 * MILLI, Memory := 50 * 1024 * 1024 * ONE];
    var requirements := new Requirements(requests, limits);
    errors := requirements.Adjust(limitRanges);
    requests, limits := requirements.requests, requirements.limits;
  }

  // ---------------------------------------------------------------- told by items

  /** Item `item` of LimitRange `range`. */
  datatype Place = Place(range: nat, item: nat)

  predicate Precedes(p: Place, q: Place)
  {
    p.range < q.range || (p.range == q.range && p.item < q.item)
  }

  predicate Present(limitRanges: seq<seq<Item>>, p: Place)
  {
    p.range < |limitRanges| && p.item < |limitRanges[p.range]|
  }

  function At(limitRanges: seq<seq<Item>>, p: Place): (item: Item)
    requires Present(limitRanges, p)
  {
    limitRanges[p.range][p.item]
  }

  /** Only items for containers and for pods bind the exposer. */
  predicate Binding(limitRanges: seq<seq<Item>>, p: Place)
  {
    Present(limitRanges, p) && (At(limitRanges, p).kind == "Container" || At(limitRanges, p).kind == "Pod")
  }

  /** Items the API server accepts. */
  ghost predicate SaneRanges(limitRanges: seq<seq<Item>>)
  {
    forall p: Place :: Binding(limitRanges, p) ==>
                         Sane(BoundsIn(At(limitRanges, p), Memory)) && Sane(BoundsIn(At(limitRanges, p), Cpu))
  }

  /** The bounds in the order in which they are met: `places` says where each comes from. */
  ghost predicate Sources(limitRanges: seq<seq<Item>>, name: Resource, bs: seq<Bounds>, places: seq<Place>)
  {
    && |places| == |bs|
    && (forall k :: 0 <= k < |bs| ==>
                      Binding(limitRanges, places[k]) && bs[k] == BoundsIn(At(limitRanges, places[k]), name))
    && (forall k, l :: 0 <= k < l < |bs| ==> Precedes(places[k], places[l]))
    && (forall p: Place :: Binding(limitRanges, p) ==> p in places)
  }

  /** The same for the items of one LimitRange, of which the first `from` are done. */
  predicate SourcesIn(items: seq<Item>, from: nat, name: Resource, bs: seq<Bounds>, at: seq<nat>)
  {
    && |at| == |bs|
    && (forall k :: 0 <= k < |bs| ==>
                      && from <= at[k] < |items|
                      && (items[at[k]].kind == "Container" || items[at[k]].kind == "Pod")
                      && bs[k] == BoundsIn(items[at[k]], name))
    && (forall k, l :: 0 <= k < l < |bs| ==> at[k] < at[l])
    && (forall j :: from <= j < |items| && (items[j].kind == "Container" || items[j].kind == "Pod") ==> j in at)
  }

  lemma KeepItem(items: seq<Item>, from: nat, name: Resource, bs: seq<Bounds>, at: seq<nat>)
    requires from < |items| && SourcesIn(items, from + 1, name, bs, at)
    requires items[from].kind == "Container" || items[from].kind == "Pod"
    ensures SourcesIn(items, from, name, [BoundsIn(items[from], name)] + bs, [from] + at)
  {
    var at' := [from] + at;
    forall j | from <= j < |items| && (items[j].kind == "Container" || items[j].kind == "Pod")
      ensures j in at'
    {
      assert j > from ==> j in at;
    }
  }

  lemma SkipItem(items: seq<Item>, from: nat, name: Resource, bs: seq<Bounds>, at: seq<nat>)
    requires from < |items| && SourcesIn(items, from + 1, name, bs, at)
    requires !(items[from].kind == "Container" || items[from].kind == "Pod")
    ensures SourcesIn(items, from, name, bs, at)
  {
  }

  lemma {:induction false} ItemSources(items: seq<Item>, from: nat, name: Resource) returns (at: seq<nat>)
    requires from <= |items|
    ensures SourcesIn(items, from, name, BoundsOn(items[from..], name), at)
    decreases |items| - from
  {
    if from == |items| {
      return [];
    }
    at := ItemSources(items, from + 1, name);
    var bs := BoundsOn(items[from + 1..], name);
    assert items[from..] == [items[from]] + items[from + 1..];
    BoundsOnHead(items[from], items[from + 1..], name);
    if items[from].kind == "Container" || items[from].kind == "Pod" {
      KeepItem(items, from, name, bs, at);
      at := [from] + at;
    } else {
      SkipItem(items, from, name, bs, at);
    }
  }

  lemma {:induction false} BoundsOnConcat(xs: seq<Item>, ys: seq<Item>, name: Resource)
    ensures BoundsOn(xs + ys, name) == BoundsOn(xs, name) + BoundsOn(ys, name)
    decreases |xs|
  {
    if xs == [] {
      assert xs + ys == ys;
    } else {
      BoundsOnConcat(xs[1..], ys, name);
      assert (xs + ys)[1..] == xs[1..] + ys;
      var own := if Applies(xs[0]) then [BoundsIn(xs[0], name)] else [];
      ConcatAssociates(own, BoundsOn(xs[1..], name), BoundsOn(ys, name));
    }
  }

  lemma ConcatAssociates<T>(xs: seq<T>, ys: seq<T>, zs: seq<T>)
    ensures (xs + ys) + zs == xs + (ys + zs)
  {
  }

  /** Which items reach the fold, and in which order: all those for containers and pods, as they are listed. */
  lemma {:induction false} BoundsComeFromItems(limitRanges: seq<seq<Item>>, name: Resource) returns (places: seq<Place>)
    ensures Sources(limitRanges, name, BoundsOn(Flatten(limitRanges), name), places)
    decreases |limitRanges|
  {
    places := [];
    if limitRanges != [] {
      var head, rest := limitRanges[0], limitRanges[1..];
      var later := BoundsComeFromItems(rest, name);
      var at := ItemSources(head, 0, name);
      assert head[0..] == head;
      BoundsOnConcat(head, Flatten(rest), name);
      places := FirstPlaces(at) + Shifted(later);
      JoinSources(limitRanges, name, BoundsOn(head, name), at, BoundsOn(Flatten(rest), name), later);
    }
  }

  function FirstPlaces(at: seq<nat>): (places: seq<Place>)
    ensures |places| == |at|
    ensures forall k :: 0 <= k < |at| ==> places[k] == Place(0, at[k])
  {
    seq(|at|, k requires 0 <= k < |at| => Place(0, at[k]))
  }

  function Shifted(ps: seq<Place>): (places: seq<Place>)
    ensures |places| == |ps|
    ensures forall k :: 0 <= k < |ps| ==> places[k] == ps[k].(range := ps[k].range + 1)
  {
    seq(|ps|, k requires 0 <= k < |ps| => ps[k].(range := ps[k].range + 1))
  }

  lemma JoinSources(limitRanges: seq<seq<Item>>, name: Resource, bs: seq<Bounds>, at: seq<nat>,
                    cs: seq<Bounds>, later: seq<Place>)
    requires limitRanges != []
    requires SourcesIn(limitRanges[0], 0, name, bs, at) && Sources(limitRanges[1..], name, cs, later)
    ensures Sources(limitRanges, name, bs + cs, FirstPlaces(at) + Shifted(later))
  {
    var places, all := FirstPlaces(at) + Shifted(later), bs + cs;
    forall k | 0 <= k < |all|
      ensures Binding(limitRanges, places[k]) && all[k] == BoundsIn(At(limitRanges, places[k]), name)
    {
      JoinedPlace(limitRanges, name, bs, at, cs, later, k);
    }
    forall k, l | 0 <= k < l < |all|
      ensures Precedes(places[k], places[l])
    {
      if k >= |bs| {
        assert Precedes(later[k - |bs|], later[l - |bs|]);
      }
    }
    forall p: Place | Binding(limitRanges, p)
      ensures p in places
    {
      PlaceIsListed(limitRanges, name, bs, at, cs, later, p);
    }
  }

  lemma JoinedPlace(limitRanges: seq<seq<Item>>, name: Resource, bs: seq<Bounds>, at: seq<nat>,
                    cs: seq<Bounds>, later: seq<Place>, k: nat)
    requires limitRanges != [] && k < |bs| + |cs|
    requires SourcesIn(limitRanges[0], 0, name, bs, at) && Sources(limitRanges[1..], name, cs, later)
    ensures var p := (FirstPlaces(at) + Shifted(later))[k];
            Binding(limitRanges, p) && (bs + cs)[k] == BoundsIn(At(limitRanges, p), name)
  {
    if k >= |bs| {
      var q := later[k - |bs|];
      assert Binding(limitRanges[1..], q) && At(limitRanges[1..], q) == At(limitRanges, q.(range := q.range + 1));
    }
  }

  lemma PlaceIsListed(limitRanges: seq<seq<Item>>, name: Resource, bs: seq<Bounds>, at: seq<nat>,
                      cs: seq<Bounds>, later: seq<Place>, p: Place)
    requires limitRanges != [] && Binding(limitRanges, p)
    requires SourcesIn(limitRanges[0], 0, name, bs, at) && Sources(limitRanges[1..], name, cs, later)
    ensures p in FirstPlaces(at) + Shifted(later)
  {
    var places := FirstPlaces(at) + Shifted(later);
    if p.range == 0 {
      var k :| 0 <= k < |at| && at[k] == p.item;
      assert places[k] == p;
    } else {
      var q := p.(range := p.range - 1);
      assert Binding(limitRanges[1..], q);
      var k :| 0 <= k < |later| && later[k] == q;
      assert places[|at| + k] == p;
    }
  }

  lemma SaneBounds(limitRanges: seq<seq<Item>>, name: Resource)
    requires SaneRanges(limitRanges) && !name.OtherResource?
    ensures SaneAll(BoundsOn(Flatten(limitRanges), name))
  {
    var places := BoundsComeFromItems(limitRanges, name);
  }

  /** What the fitting leaves of a request and a limit, by items: nothing is lowered, every Min for a
      container or a pod holds, and a limit is raised only to such a Min. */
  ghost predicate Fitted(limitRanges: seq<seq<Item>>, name: Resource, a: Ask, a': Ask)
  {
    && Grows(a.request, a'.request) && Grows(a.limit, a'.limit)
    && (forall p: Place :: Binding(limitRanges, p) ==>
                             && Meets(a'.request, Get(At(limitRanges, p).min, name))
                             && Meets(a'.limit, Get(At(limitRanges, p).min, name)))
    && (a'.limit == a.limit
        || exists p: Place :: Binding(limitRanges, p) && Get(At(limitRanges, p).min, name) == a'.limit)
  }

  lemma FittedByItems(limitRanges: seq<seq<Item>>, name: Resource, a: Ask)
    requires SaneRanges(limitRanges) && !name.OtherResource? && FineAsk(a)
    ensures Fitted(limitRanges, name, a, FitAll(a, BoundsOn(Flatten(limitRanges), name)))
  {
    var bs := BoundsOn(Flatten(limitRanges), name);
    var places := BoundsComeFromItems(limitRanges, name);
    SaneBounds(limitRanges, name);
    FitAllFits(a, bs);
    var a' := FitAll(a, bs);
    forall p: Place | Binding(limitRanges, p)
      ensures Meets(a'.request, Get(At(limitRanges, p).min, name)) && Meets(a'.limit, Get(At(limitRanges, p).min, name))
    {
      var k := SourceOf(limitRanges, name, bs, places, p);
      assert Meets(a'.request, bs[k].min) && Meets(a'.limit, bs[k].min);
    }
    if a.limit.Some? {
      FinalLimitIsGreatest(a, bs);
      if a'.limit != a.limit {
        var i :| 0 <= i < |bs| && bs[i].min == a'.limit;
        assert Binding(limitRanges, places[i]);
      }
    }
  }

  /** The item at p has a Max below `limit`, or below the Min of an item that comes before it. */
  ghost predicate BreaksMax(limitRanges: seq<seq<Item>>, name: Resource, limit: int, p: Place)
  {
    && Binding(limitRanges, p) && name in At(limitRanges, p).max
    && var max := At(limitRanges, p).max[name];
       || max < limit
       || exists q: Place :: && Binding(limitRanges, q) && Precedes(q, p)
                             && name in At(limitRanges, q).min && At(limitRanges, q).min[name] > max
  }

  /** For a request within a tight limit, exactly such items raise errors. */
  lemma ErrorsByItems(limitRanges: seq<seq<Item>>, name: Resource, a: Ask)
    requires SaneRanges(limitRanges) && !name.OtherResource? && FineAsk(a) && Within(a) && Tight(a)
    ensures Errors(a, BoundsOn(Flatten(limitRanges), name)) != 0 <==>
            exists p: Place :: BreaksMax(limitRanges, name, a.limit.value, p)
  {
    var bs := BoundsOn(Flatten(limitRanges), name);
    var places := BoundsComeFromItems(limitRanges, name);
    SaneBounds(limitRanges, name);
    ErrorsIff(a, bs);
    BrokenByItems(limitRanges, name, a, bs, places);
  }

  lemma BrokenByItems(limitRanges: seq<seq<Item>>, name: Resource, a: Ask, bs: seq<Bounds>, places: seq<Place>)
    requires Sources(limitRanges, name, bs, places) && a.limit.Some?
    ensures EarlyMaxBroken(a, bs) <==> exists p: Place :: BreaksMax(limitRanges, name, a.limit.value, p)
  {
    if EarlyMaxBroken(a, bs) {
      var i :| 0 <= i < |bs| && !(Under(a.limit, bs[i].max) && MinsUnder(bs[..i], bs[i].max));
      BoundBreaksMax(limitRanges, name, a.limit.value, bs, places, i);
    }
    forall p: Place | BreaksMax(limitRanges, name, a.limit.value, p)
      ensures EarlyMaxBroken(a, bs)
    {
      var i := SourceOf(limitRanges, name, bs, places, p);
      ItemBreaksBound(limitRanges, name, a.limit.value, bs, places, i);
    }
  }

  lemma SourceOf(limitRanges: seq<seq<Item>>, name: Resource, bs: seq<Bounds>, places: seq<Place>, p: Place)
    returns (i: nat)
    requires Sources(limitRanges, name, bs, places) && Binding(limitRanges, p)
    ensures i < |bs| && places[i] == p && bs[i] == BoundsIn(At(limitRanges, p), name)
  {
    i :| 0 <= i < |places| && places[i] == p;
  }

  lemma BoundBreaksMax(limitRanges: seq<seq<Item>>, name: Resource, limit: int, bs: seq<Bounds>,
                       places: seq<Place>, i: nat)
    requires Sources(limitRanges, name, bs, places) && i < |bs|
    requires !(Under(Some(limit), bs[i].max) && MinsUnder(bs[..i], bs[i].max))
    ensures BreaksMax(limitRanges, name, limit, places[i])
  {
    if !MinsUnder(bs[..i], bs[i].max) {
      var j :| 0 <= j < i && !Under(bs[j].min, bs[i].max);
      assert Precedes(places[j], places[i]) && Binding(limitRanges, places[j]);
    }
  }

  lemma ItemBreaksBound(limitRanges: seq<seq<Item>>, name: Resource, limit: int, bs: seq<Bounds>,
                        places: seq<Place>, i: nat)
    requires Sources(limitRanges, name, bs, places) && i < |bs|
    requires BreaksMax(limitRanges, name, limit, places[i])
    ensures !(Under(Some(limit), bs[i].max) && MinsUnder(bs[..i], bs[i].max))
  {
    var max := At(limitRanges, places[i]).max[name];
    if max >= limit {
      var q: Place :| && Binding(limitRanges, q) && Precedes(q, places[i])
                      && name in At(limitRanges, q).min && At(limitRanges, q).min[name] > max;
      var j := SourceOf(limitRanges, name, bs, places, q);
      assert Precedes(places[j], places[i]) && !Precedes(places[i], places[j]);
      assert j < i;
      assert bs[..i][j] == bs[j];
    }
  }

  /** Some item for containers or pods has a Max below the exposer's 50Mi of memory or 100m of CPU, or
      below the Min of an item before it. */
  ghost predicate Unfittable(limitRanges: seq<seq<Item>>)
  {
    exists p: Place :: || BreaksMax(limitRanges, Memory, 52_428_800 * ONE, p)
                       || BreaksMax(limitRanges, Cpu, 100 * MILLI, p)
  }

  /** Exactly then is the container refused. */
  lemma RefusedIff(limitRanges: seq<seq<Item>>)
    requires SaneRanges(limitRanges)
    ensures Refusals(limitRanges) != 0 <==> Unfittable(limitRanges)
  {
    ErrorsByItems(limitRanges, Memory, EXPOSER_MEMORY);
    ErrorsByItems(limitRanges, Cpu, EXPOSER_CPU);
    assert EXPOSER_MEMORY.limit.value == 52_428_800 * ONE && EXPOSER_CPU.limit.value == 100 * MILLI;
  }
}
