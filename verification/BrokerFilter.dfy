/**
 What a subscription filter selects, as laws that build every filter up from one scope and one thread.
 */
module BrokerFilter {
  import opened Common
  import opened BrokerModel
  import opened BrokerJournal

  /** Scopes and threads restrict independently of each other. */
  lemma RestrictionsAreIndependent(f: Filter, e: EventRecord)
    ensures Matches(f, e) <==> Matches(f.(scopes := None), e) && Matches(f.(threads := None), e)
    ensures Matches(Filter(f.after, None, None), e) <==> f.after < e.cursor
  {
  }

  /** A set of scopes selects what its members select. */
  lemma ScopesUnite(f: Filter, a: set<Scope>, b: set<Scope>, e: EventRecord)
    ensures Matches(f.(scopes := Some(a + b)), e) <==>
            Matches(f.(scopes := Some(a)), e) || Matches(f.(scopes := Some(b)), e)
    ensures !Matches(f.(scopes := Some({})), e)
  {
  }

  /** One scope selects exactly its own events above `after`. */
  lemma OneScope(after: nat, scope: Scope, e: EventRecord)
    ensures Matches(Filter(after, Some({scope}), None), e) <==> after < e.cursor && e.scope == scope
  {
  }

  /** A set of threads selects, among thread events, what its members select. */
  lemma ThreadsUnite(f: Filter, a: set<string>, b: set<string>, e: EventRecord)
    ensures Matches(f.(threads := Some(a + b)), e) <==>
            Matches(f.(threads := Some(a)), e) || Matches(f.(threads := Some(b)), e)
    ensures e.scope == ThreadScope ==> !Matches(f.(threads := Some({})), e)
  {
  }

  /** One thread selects, among thread events, exactly its own. */
  lemma OneThread(after: nat, id: string, e: EventRecord)
    requires e.scope == ThreadScope
    ensures Matches(Filter(after, None, Some({id})), e) <==> after < e.cursor && e.threadId == Some(id)
  {
  }

  /** A set of threads never filters out an event that belongs to no thread. */
  lemma ThreadsSpareTheRest(f: Filter, threads: set<string>, e: EventRecord)
    requires e.scope != ThreadScope
    ensures Matches(f.(threads := Some(threads)), e) <==> Matches(f.(threads := None), e)
  {
  }

  /** What is owed to a filter of scopes alone: exactly the journal's events of those scopes. */
  lemma OwedOfScopes(j: Journal, after: nat, scopes: set<Scope>, hi: nat, e: EventRecord)
    requires Numbered(j)
    ensures e in Owed(j, Filter(after, Some(scopes), None), hi) <==>
            after < e.cursor <= hi && e == j(e.cursor) && e.scope in scopes
  {
    OwedIsExact(j, Filter(after, Some(scopes), None), hi);
  }

  /** What is owed to everybody's filter: all of the journal. */
  lemma OwedOfEverything(j: Journal, after: nat, hi: nat, e: EventRecord)
    requires Numbered(j)
    ensures e in Owed(j, Filter(after, None, None), hi) <==> after < e.cursor <= hi && e == j(e.cursor)
  {
    OwedIsExact(j, Filter(after, None, None), hi);
  }

  /** What is owed to a filter of threads: their events, in whatever other scopes are asked for too. */
  lemma OwedOfThreads(j: Journal, after: nat, scopes: Option<set<Scope>>, threads: set<string>, hi: nat, e: EventRecord)
    requires Numbered(j)
    ensures e in Owed(j, Filter(after, scopes, Some(threads)), hi) <==>
            && after < e.cursor <= hi && e == j(e.cursor)
            && (scopes.Some? ==> e.scope in scopes.value)
            && (e.scope == ThreadScope ==> e.threadId.Some? && e.threadId.value in threads)
  {
    OwedIsExact(j, Filter(after, scopes, Some(threads)), hi);
  }

  /** A filter is refused for a cursor out of range, for an empty set, for more than 64 threads, and for
      threads without the thread scope; and for nothing else. */
  lemma RefusedFilters(f: Filter)
    ensures !FilterAccepted(f) <==>
            || f.after > 0x7fff_ffff_ffff_ffff
            || f.scopes == Some({})
            || f.threads == Some({})
            || (f.threads.Some? && |f.threads.value| > 64)
            || (f.threads.Some? && f.scopes.Some? && forall s :: s in f.scopes.value ==> s != ThreadScope)
  {
  }

  /** A subscription is refused while the broker is open only for its filter or for lack of places. */
  lemma RefusedSubscriptions<K>(b: Broker<K>, k: K, f: Filter)
    requires b.registered <= b.subs.Keys
    ensures SubscribeAccepted(b, f) <==> !b.closed && FilterAccepted(f) && |b.registered| < 32
    ensures !SubscribeAccepted(b, f) ==> Subscribe(b, k, f) == b
    ensures SubscribeAccepted(b, f) ==> k in Subscribe(b, k, f).subs && Subscribe(b, k, f).subs[k].filter == f
  {
    hide FilterAccepted;
    ReplayedFilter(NewSub(f, b.config), b.history, b.cursor);
  }

  lemma ReplayedFilter(s: Sub, history: seq<EventRecord>, cursor: nat)
    ensures Replayed(s, history, cursor).filter == s.filter
  {
    PutAllFilter(s, Select(history, s.filter), cursor);
  }

  lemma {:induction false} PutAllFilter(s: Sub, events: seq<EventRecord>, cursor: nat)
    ensures PutAll(s, events, cursor).filter == s.filter
    decreases |events|
  {
    if events != [] && CanPut(s, Event(events[0])) { PutAllFilter(Put(s, Event(events[0])), events[1..], cursor); }
  }
}
