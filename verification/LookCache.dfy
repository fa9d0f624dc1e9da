/** The look caches: texts by kind and key, and measures found first by the look object's identity and then
    by its key. */
module LookCache {
  import opened Basics

  const MAX := 128

  // ----- A bounded cache in order of use -----

  /** Oldest use first, as an ordered dictionary keeps them. */
  datatype Entry<K, V> = Entry(key: K, value: V)

  function Keys<K, V>(cache: seq<Entry<K, V>>): (keys: seq<K>)
    ensures |keys| == |cache|
    ensures forall i :: 0 <= i < |cache| ==> keys[i] == cache[i].key
  {
    seq(|cache|, i requires 0 <= i < |cache| => cache[i].key)
  }

  function Find<K(==, !new), V>(cache: seq<Entry<K, V>>, key: K): (found: Option<V>)
    ensures found.Some? ==> Entry(key, found.value) in cache
    ensures found.None? <==> key !in Keys(cache)
  {
    if cache == [] then None
    else if cache[0].key == key then
      assert Keys(cache)[0] == key;
      Some(cache[0].value)
    else
      var rest := Find(cache[1..], key);
      assert Keys(cache) == [cache[0].key] + Keys(cache[1..]);
      rest
  }

  function Without<K(==, !new)>(keys: seq<K>, key: K): (rest: seq<K>)
    ensures key !in rest
    ensures forall k :: k in rest <==> k in keys && k != key
    ensures key !in keys ==> rest == keys
  {
    if keys == [] then []
    else if keys[|keys| - 1] == key then Without(keys[..|keys| - 1], key)
    else Without(keys[..|keys| - 1], key) + [keys[|keys| - 1]]
  }

  function Drop<K(==, !new), V>(cache: seq<Entry<K, V>>, key: K): (rest: seq<Entry<K, V>>)
    ensures Keys(rest) == Without(Keys(cache), key)
    ensures forall e <- rest :: e in cache && e.key != key
    ensures |rest| <= |cache|
    ensures key in Keys(cache) ==> |rest| < |cache|
  {
    if cache == [] then []
    else
      var front, last := cache[..|cache| - 1], cache[|cache| - 1];
      assert Keys(cache)[..|cache| - 1] == Keys(front) && Keys(cache) == Keys(front) + [last.key];
      var kept := Drop(front, key);
      if last.key == key then kept
      else
        assert Keys(kept + [last]) == Keys(kept) + [last.key];
        kept + [last]
  }

  /** A hit becomes the newest use. */
  function Touched<K(==, !new), V>(cache: seq<Entry<K, V>>, key: K): seq<Entry<K, V>> {
    match Find(cache, key)
    case None => cache
    case Some(value) => Drop(cache, key) + [Entry(key, value)]
  }

  /** A new entry goes in as the newest, and past the limit the oldest goes out. */
  function Added<K, V>(cache: seq<Entry<K, V>>, key: K, value: V): seq<Entry<K, V>> {
    var all := cache + [Entry(key, value)];
    if |all| > MAX then all[1..] else all
  }

  /** The keys asked for, each once, in the order they were last asked for. */
  function LastUses<K(==, !new)>(history: seq<K>): (uses: seq<K>)
    ensures Distinct(uses)
    ensures forall k :: k in uses <==> k in history
  {
    if history == [] then []
    else
      var last := history[|history| - 1];
      var rest := Without(LastUses(history[..|history| - 1]), last);
      WithoutDistinct(LastUses(history[..|history| - 1]), last);
      assert history == history[..|history| - 1] + [last];
      rest + [last]
  }

  lemma DistinctFront<K(!new)>(keys: seq<K>)
    requires keys != [] && Distinct(keys)
    ensures Distinct(keys[..|keys| - 1]) && keys[|keys| - 1] !in keys[..|keys| - 1]
  {
  }

  lemma DistinctWithLast<K(!new)>(keys: seq<K>, last: K)
    requires Distinct(keys) && last !in keys
    ensures Distinct(keys + [last])
  {
  }

  lemma {:induction false} WithoutDistinct<K(!new)>(keys: seq<K>, key: K)
    requires Distinct(keys)
    ensures Distinct(Without(keys, key))
    ensures |Without(keys, key)| == if key in keys then |keys| - 1 else |keys|
  {
    hide Distinct;
    if keys == [] {
      assert Without(keys, key) == keys;
    } else {
      var front, last := keys[..|keys| - 1], keys[|keys| - 1];
      DistinctFront(keys);
      WithoutDistinct(front, key);
      assert keys == front + [last];
      if last != key {
        DistinctWithLast(Without(front, key), last);
      }
    }
  }

  function Newest<K>(keys: seq<K>): (newest: seq<K>)
    ensures |newest| <= MAX
  {
    if |keys| > MAX then keys[|keys| - MAX..] else keys
  }

  lemma {:induction false} WithoutSplits<K(!new)>(a: seq<K>, b: seq<K>, key: K)
    ensures Without(a + b, key) == Without(a, key) + Without(b, key)
  {
    if b == [] {
      assert a + b == a;
    } else {
      assert (a + b)[..|a + b| - 1] == a + b[..|b| - 1];
      WithoutSplits(a, b[..|b| - 1], key);
    }
  }

  lemma NewestOfTail<K>(front: seq<K>, tail: seq<K>)
    requires |tail| <= MAX && (|tail| == MAX || front == [])
    ensures Newest(front + tail) == tail
  {
    if front == [] {
      assert front + tail == tail;
    }
  }

  lemma HitStep<K(!new)>(older: seq<K>, cached: seq<K>, key: K)
    requires |cached| <= MAX && (|cached| == MAX || older == [])
    requires key !in older && |Without(cached, key)| == |cached| - 1
    ensures Newest(Without(older + cached, key) + [key]) == Without(cached, key) + [key]
  {
    WithoutSplits(older, cached, key);
    var tail := Without(cached, key) + [key];
    assert Without(older + cached, key) + [key] == older + tail;
    hide Without;
    NewestOfTail(older, tail);
  }

  lemma MissStep<K(!new)>(older: seq<K>, cached: seq<K>, key: K)
    requires |cached| <= MAX && (|cached| == MAX || older == [])
    requires key !in cached
    ensures Newest(Without(older + cached, key) + [key])
         == if |cached| == MAX then cached[1..] + [key] else cached + [key]
  {
    WithoutSplits(older, cached, key);
    var rest := Without(older, key);
    hide Without;
    assert Without(older + cached, key) == rest + cached;
    if |cached| == MAX {
      var tail := cached[1..] + [key];
      assert rest + cached + [key] == (rest + [cached[0]]) + tail;
      NewestOfTail(rest + [cached[0]], tail);
    } else {
      assert rest == [];
      assert rest + cached + [key] == [] + (cached + [key]);
      NewestOfTail([], cached + [key]);
    }
  }

  lemma SplitNewest<K(!new)>(uses: seq<K>) returns (older: seq<K>)
    ensures uses == older + Newest(uses)
    ensures |Newest(uses)| == MAX || older == []
    ensures Distinct(uses) ==> Distinct(Newest(uses)) && forall k <- Newest(uses) :: k !in older
  {
    older := uses[..|uses| - |Newest(uses)|];
    assert forall i | 0 <= i < |Newest(uses)| :: Newest(uses)[i] == uses[|older| + i];
  }

  /** Asking for one more key keeps the newest ones, whether it was there or not. */
  lemma NewestStep<K(!new)>(uses: seq<K>, key: K)
    requires Distinct(uses)
    ensures var cached := Newest(uses);
            Newest(Without(uses, key) + [key])
              == if key in cached then Without(cached, key) + [key]
                 else if |cached| == MAX then cached[1..] + [key] else cached + [key]
  {
    var older := SplitNewest(uses);
    var cached := Newest(uses);
    hide Without, Newest, Distinct;
    WithoutDistinct(cached, key);
    if key in cached {
      HitStep(older, cached, key);
    } else {
      MissStep(older, cached, key);
    }
  }

  /** Asking a cache: what it answers, and the cache afterwards. */
  function Asked<K(==, !new), V>(cache: seq<Entry<K, V>>, key: K, fetch: K -> V): (V, seq<Entry<K, V>>) {
    match Find(cache, key)
    case Some(value) => (value, Touched(cache, key))
    case None => (fetch(key), Added(cache, key, fetch(key)))
  }

  function AskedAll<K(==, !new), V>(history: seq<K>, fetch: K -> V): seq<Entry<K, V>> {
    if history == [] then [] else Asked(AskedAll(history[..|history| - 1], fetch), history[|history| - 1], fetch).1
  }

  /** The cache always answers what asking afresh would, and holds exactly the newest 128 distinct keys. */
  lemma {:induction false} CacheIsTransparent<K(!new), V>(history: seq<K>, key: K, fetch: K -> V)
    ensures Asked(AskedAll(history, fetch), key, fetch).0 == fetch(key)
    ensures Keys(AskedAll(history, fetch)) == Newest(LastUses(history))
    ensures forall e <- AskedAll(history, fetch) :: e.value == fetch(e.key)
    ensures |AskedAll(history, fetch)| == if |LastUses(history)| < 128 then |LastUses(history)| else 128
  {
    if history != [] {
      var front, last := history[..|history| - 1], history[|history| - 1];
      CacheIsTransparent(front, last, fetch);
      NewestStep(LastUses(front), last);
      var cache := AskedAll(front, fetch);
      assert AskedAll(history, fetch) == Asked(cache, last, fetch).1;
      assert LastUses(history) == Without(LastUses(front), last) + [last];
      hide AskedAll, LastUses, Without, Newest, Asked, Keys;
      AskedKeepsEntries(cache, last, fetch);
      StepKeys(cache, last, fetch);
    }
    AskedKeepsEntries(AskedAll(history, fetch), key, fetch);
  }

  lemma StepKeys<K(!new), V>(cache: seq<Entry<K, V>>, key: K, fetch: K -> V)
    requires |cache| <= MAX
    ensures Keys(Asked(cache, key, fetch).1)
         == if key in Keys(cache) then Without(Keys(cache), key) + [key]
            else if |cache| == MAX then Keys(cache)[1..] + [key] else Keys(cache) + [key]
  {
  }

  // ----- Texts by kind and key -----

  function Slot(kind: string, key: string): string {
    kind + ['\0'] + key
  }

  /** Kinds are names in the program and hold no NUL, so no two questions share a slot. */
  lemma {:induction false} SlotsNeverMix(kind: string, key: string, otherKind: string, otherKey: string)
    requires '\0' !in kind && '\0' !in otherKind
    ensures Slot(kind, key) == Slot(otherKind, otherKey) <==> kind == otherKind && key == otherKey
  {
    if Slot(kind, key) == Slot(otherKind, otherKey) {
      assert Slot(kind, key)[|kind|] == '\0' && Slot(otherKind, otherKey)[|otherKind|] == '\0';
      assert forall i | 0 <= i < |kind| :: Slot(kind, key)[i] == kind[i];
      assert forall i | 0 <= i < |otherKind| :: Slot(otherKind, otherKey)[i] == otherKind[i];
      assert |kind| == |otherKind|;
      assert kind == Slot(kind, key)[..|kind|];
      assert key == Slot(kind, key)[|kind| + 1..];
      assert otherKind == Slot(otherKind, otherKey)[..|kind|];
      assert otherKey == Slot(otherKind, otherKey)[|kind| + 1..];
    }
  }

  // ----- Measures by identity, then by key -----

  type Look = nat
  type Address = nat

  /** A live look: where it is in memory, and the text it is written as. */
  datatype Place = Place(address: Address, key: string)

  /** The looks alive, and the two caches. The identity cache keeps each look it holds alive. */
  datatype State<M> = State(
    heap: map<Look, Place>,
    byKey: seq<Entry<string, M>>,
    byObject: seq<Entry<Address, (Look, M)>>)

  /** An entry under a key already there is replaced where it is. */
  function Put<K(==, !new), V>(cache: seq<Entry<K, V>>, key: K, value: V): seq<Entry<K, V>> {
    if key in Keys(cache) then
      seq(|cache|, i requires 0 <= i < |cache| => if cache[i].key == key then Entry(key, value) else cache[i])
    else Added(cache, key, value)
  }

  function Measures<M>(s: State<M>, look: Look, measure: string -> M): (M, State<M>)
    requires look in s.heap
  {
    var place := s.heap[look];
    var seen := Find(s.byObject, place.address);
    if seen.Some? && seen.value.0 == look then (seen.value.1, s.(byObject := Touched(s.byObject, place.address)))
    else
      var (answer, byKey) := Asked(s.byKey, place.key, measure);
      (answer, s.(byKey := byKey, byObject := Put(s.byObject, place.address, (look, answer))))
  }

  datatype Event = Make(look: Look, address: Address, key: string) | Free(look: Look) | Ask(look: Look)

  /** A look is freed only when nothing holds it, and its address may then be another's. */
  ghost predicate Possible<M>(s: State<M>, e: Event) {
    match e
    case Make(look, address, _) => look !in s.heap && forall other <- s.heap :: s.heap[other].address != address
    case Free(look) => look in s.heap && forall held <- s.byObject :: held.value.0 != look
    case Ask(look) => look in s.heap
  }

  function Next<M>(s: State<M>, e: Event, measure: string -> M): State<M>
    requires Possible(s, e)
  {
    match e
    case Make(look, address, key) => s.(heap := s.heap[look := Place(address, key)])
    case Free(look) => s.(heap := s.heap - {look})
    case Ask(look) => Measures(s, look, measure).1
  }

  ghost function Run<M>(s: State<M>, events: seq<Event>, measure: string -> M): State<M>
    decreases events
  {
    if events == [] || !Possible(s, events[0]) then s else Run(Next(s, events[0], measure), events[1..], measure)
  }

  ghost predicate Sound<M>(s: State<M>, measure: string -> M) {
    && (forall a <- s.heap, b <- s.heap :: s.heap[a].address == s.heap[b].address ==> a == b)
    && (forall e <- s.byKey :: e.value == measure(e.key))
    && (forall e <- s.byObject :: e.value.0 in s.heap && s.heap[e.value.0].address == e.key
                                  && e.value.1 == measure(s.heap[e.value.0].key))
    && |s.byKey| <= MAX && |s.byObject| <= MAX
  }

  lemma PutKeepsOthers<K(!new), V>(cache: seq<Entry<K, V>>, key: K, value: V)
    requires |cache| <= MAX
    ensures forall e <- Put(cache, key, value) :: e in cache || e == Entry(key, value)
    ensures |Put(cache, key, value)| <= MAX
  {
  }

  lemma TouchedKeepsEntries<K(!new), V>(cache: seq<Entry<K, V>>, key: K)
    ensures forall e <- Touched(cache, key) :: e in cache
    ensures |Touched(cache, key)| <= |cache|
  {
  }

  lemma AskedKeepsEntries<K(!new), V>(cache: seq<Entry<K, V>>, key: K, fetch: K -> V)
    requires |cache| <= MAX && forall e <- cache :: e.value == fetch(e.key)
    ensures var (answer, after) := Asked(cache, key, fetch);
            answer == fetch(key) && |after| <= MAX && forall e <- after :: e.value == fetch(e.key)
  {
    TouchedKeepsEntries(cache, key);
  }

  lemma AskKeepsSound<M>(s: State<M>, look: Look, measure: string -> M)
    requires Sound(s, measure) && look in s.heap
    ensures Sound(Measures(s, look, measure).1, measure)
    ensures Measures(s, look, measure).0 == measure(s.heap[look].key)
    ensures var seen := Find(s.byObject, s.heap[look].address); seen.Some? ==> seen.value.0 == look
  {
    hide Asked, Put, Touched;
    var place := s.heap[look];
    var seen := Find(s.byObject, place.address);
    if seen.Some? {
      assert Entry(place.address, seen.value) in s.byObject;
      TouchedKeepsEntries(s.byObject, place.address);
    } else {
      var (answer, byKey) := Asked(s.byKey, place.key, measure);
      AskedKeepsEntries(s.byKey, place.key, measure);
      PutKeepsOthers(s.byObject, place.address, (look, answer));
    }
  }

  lemma {:induction false} RunsAreSound<M>(s: State<M>, events: seq<Event>, measure: string -> M)
    requires Sound(s, measure)
    ensures Sound(Run(s, events, measure), measure)
    decreases events
  {
    if events != [] && Possible(s, events[0]) {
      match events[0] {
        case Ask(look) => AskKeepsSound(s, look, measure);
        case _ =>
      }
      RunsAreSound(Next(s, events[0], measure), events[1..], measure);
    }
  }

  /** In every run, with looks freed and their addresses given to others: asking answers what working it out
      afresh would; an entry under a look's address is that very look's; and no cache outgrows its limit. */
  lemma MeasuresAreTransparent<M>(events: seq<Event>, look: Look, measure: string -> M)
    ensures var s := Run(State(map[], [], []), events, measure);
            && |s.byKey| <= MAX && |s.byObject| <= MAX
            && (look in s.heap ==>
                  && Measures(s, look, measure).0 == measure(s.heap[look].key)
                  && var seen := Find(s.byObject, s.heap[look].address);
                     seen.Some? ==> seen.value.0 == look)
  {
    var start: State<M> := State(map[], [], []);
    RunsAreSound(start, events, measure);
    var s := Run(start, events, measure);
    if look in s.heap {
      AskKeepsSound(s, look, measure);
    }
  }

  lemma {:induction false} FoundAtItsPlace<K(!new), V>(cache: seq<Entry<K, V>>, key: K, at: nat)
    requires at < |cache| && cache[at].key == key && forall i :: 0 <= i < at ==> cache[i].key != key
    ensures Find(cache, key) == Some(cache[at].value)
  {
    if at > 0 {
      FoundAtItsPlace(cache[1..], key, at - 1);
    }
  }

  lemma {:induction false} FirstPlace<K(!new), V>(cache: seq<Entry<K, V>>, key: K) returns (at: nat)
    requires key in Keys(cache)
    ensures at < |cache| && cache[at].key == key && forall i :: 0 <= i < at ==> cache[i].key != key
    ensures Find(cache, key) == Some(cache[at].value)
  {
    if cache[0].key == key {
      at := 0;
    } else {
      var k :| 0 <= k < |cache| && Keys(cache)[k] == key;
      assert Keys(cache[1..])[k - 1] == key;
      var rest := FirstPlace(cache[1..], key);
      at := rest + 1;
      assert forall i | 0 < i < at :: cache[i] == cache[1..][i - 1];
    }
  }

  lemma NewAtTheEnd<K(!new), V>(cache: seq<Entry<K, V>>, key: K, value: V)
    requires key !in Keys(cache)
    ensures Find(Added(cache, key, value), key) == Some(value)
  {
    var all := cache + [Entry(key, value)];
    var after := Added(cache, key, value);
    forall i | 0 <= i < |cache| ensures all[i].key != key {
      assert Keys(cache)[i] == cache[i].key;
    }
    FoundAtItsPlace(after, key, |after| - 1);
  }

  lemma PutIsFound<K(!new), V>(cache: seq<Entry<K, V>>, key: K, value: V)
    ensures Find(Put(cache, key, value), key) == Some(value)
  {
    if key in Keys(cache) {
      var at := FirstPlace(cache, key);
      FoundAtItsPlace(Put(cache, key, value), key, at);
    } else {
      NewAtTheEnd(cache, key, value);
    }
  }

  lemma TouchedIsFound<K(!new), V>(cache: seq<Entry<K, V>>, key: K)
    ensures Find(Touched(cache, key), key) == Find(cache, key)
  {
    if key in Keys(cache) {
      var rest, value := Drop(cache, key), Find(cache, key).value;
      forall i | 0 <= i < |rest| ensures rest[i].key != key {
        assert rest[i] in rest;
      }
      FoundAtItsPlace(rest + [Entry(key, value)], key, |rest|);
    }
  }

  /** What was just asked is remembered: under the look's own address, with the answer given, and if it had to
      be looked up, under its key as well. */
  lemma AnswersAreRemembered<M>(s: State<M>, look: Look, measure: string -> M)
    requires look in s.heap
    ensures var (answer, after) := Measures(s, look, measure);
            && after.heap == s.heap
            && Find(after.byObject, s.heap[look].address) == Some((look, answer))
            && (Find(s.byObject, s.heap[look].address) != Some((look, answer)) ==>
                  Find(after.byKey, s.heap[look].key) == Some(answer))
  {
    var place := s.heap[look];
    var (answer, after) := Measures(s, look, measure);
    hide Touched, Added, Put, Find;
    TouchedIsFound(s.byObject, place.address);
    TouchedIsFound(s.byKey, place.key);
    PutIsFound(s.byObject, place.address, (look, answer));
    if Find(s.byKey, place.key).None? {
      NewAtTheEnd(s.byKey, place.key, measure(place.key));
    }
  }

  // ----- The caches themselves -----

  class LookCaches<M> {
    var texts: seq<Entry<string, string>>
    var measuresByKey: seq<Entry<string, M>>
    var measuresByObject: seq<Entry<Address, (Look, M)>>

    constructor ()
      ensures texts == [] && measuresByKey == [] && measuresByObject == []
    {
      texts, measuresByKey, measuresByObject := [], [], [];
    }

    /** `fetch` asks the engine for what belongs in a slot. */
    method CachedLookJson(kind: string, key: string, fetch: string -> string) returns (text: string)
      modifies this`texts
      ensures (text, texts) == Asked(old(texts), Slot(kind, key), fetch)
    {
      var slot := Slot(kind, key);
      var hit := Find(texts, slot);
      if hit.Some? {
        texts := Touched(texts, slot);
        return hit.value;
      }
      text := fetch(slot);
      texts := texts + [Entry(slot, text)];
      if |texts| > MAX {
        texts := texts[1..];
      }
    }

    method LookMeasures(heap: map<Look, Place>, look: Look, measure: string -> M) returns (answer: M)
      requires look in heap
      modifies this`measuresByKey, this`measuresByObject
      ensures (answer, State(heap, measuresByKey, measuresByObject))
           == Measures(State(heap, old(measuresByKey), old(measuresByObject)), look, measure)
    {
      var place := heap[look];
      var seen := Find(measuresByObject, place.address);
      if seen.Some? && seen.value.0 == look {
        measuresByObject := Touched(measuresByObject, place.address);
        return seen.value.1;
      }
      var hit := Find(measuresByKey, place.key);
      if hit.None? {
        answer := measure(place.key);
        measuresByKey := measuresByKey + [Entry(place.key, answer)];
        if |measuresByKey| > MAX {
          measuresByKey := measuresByKey[1..];
        }
      } else {
        answer := hit.value;
        measuresByKey := Touched(measuresByKey, place.key);
      }
      measuresByObject := Put(measuresByObject, place.address, (look, answer));
    }
  }
}
