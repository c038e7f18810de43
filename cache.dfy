/** The cache-aside lookup `get` (packages/api/src/index.ts): read the envelope stored under a
    key; on a miss, run the producer, persist `{ item, date }` under the key and return the
    item. A stored envelope is returned with no freshness check. */
module Cache {
  import opened Wrappers
  import opened Errors

  /** The envelope `{ item, date }` the lookup persists; `date` is the clock reading in ms. */
  datatype Wrapper<T> = Wrapper(item: T, date: int)

  /** What `JSON.parse` makes of the text stored under a key: an envelope, a falsy JSON
      value (`null`, `false`, `0`, `""`), or a syntax error. */
  datatype Stored<T> = Envelope(wrapper: Wrapper<T>) | FalsyJson | Unparsable(message: string)

  /** The local `wrapper` once the read and its `catch` handler are done: an envelope, nothing
      (which triggers the producer), or an error thrown on to the caller. */
  datatype Lookup<T> = Hit(wrapper: Wrapper<T>) | Miss | Fail(error: Error)

  /** The outcome of one lookup: what it returns, whether it invoked the producer, and the
      store contents afterwards. */
  datatype Step<T> = Step(result: Result<T, Error>, fetched: bool, entries: map<string, Stored<T>>)

  /** The store's `get(key)`: the stored text, the not-found error for an absent key, or the
      fault the store raised (`fault`, supplied by the environment). */
  function ReadResult<T>(entries: map<string, Stored<T>>, key: string, fault: Option<Error>): (r: Result<Stored<T>, Error>)
    ensures fault.Some? ==> r == Failure(fault.value)
    ensures fault.None? && key in entries ==> r == Success(entries[key])
    ensures fault.None? && key !in entries ==> r.Failure? && r.error.StoreFault? && r.error.notFound
  {
    if fault.Some? then Failure(fault.value)
    else if key in entries then Success(entries[key])
    else Failure(NotFound)
  }

  /** The read's `catch` handler: keeps a rethrown reason, swallows the rest into a miss. */
  function Caught<T>(e: Error): (l: Lookup<T>)
    ensures l.Fail? <==> Rethrown(e)
    ensures l.Fail? ==> l.error == e
    ensures !l.Hit?
  {
    if Rethrown(e) then Fail(e) else Miss
  }

  /** `db.get(id).then(JSON.parse).catch(...)`. */
  function LookupOf<T>(read: Result<Stored<T>, Error>): (l: Lookup<T>)
    ensures l.Hit? <==> read.Success? && read.value.Envelope?
    ensures l.Hit? ==> l.wrapper == read.value.wrapper
    ensures read.Success? && read.value.Unparsable? ==> l == Fail(SyntaxError(read.value.message))
    ensures read.Failure? ==> l == Caught(read.error)
  {
    match read
    case Success(Envelope(w)) => Hit(w)
    case Success(FalsyJson) => Miss
    case Success(Unparsable(m)) => Caught(SyntaxError(m))
    case Failure(e) => Caught(e)
  }

  /** `get(id, fetch)` as a function of the store contents, the value the producer yields
      when it is invoked, the clock reading and the faults the store raises on read and write. */
  function GetSpec<T>(entries: map<string, Stored<T>>, id: string, fetch: Result<T, Error>, now: int,
                      readFault: Option<Error>, writeFault: Option<Error>): (s: Step<T>)
    // the producer runs exactly when the lookup misses
    ensures s.fetched <==> LookupOf(ReadResult(entries, id, readFault)).Miss?
    // a cached envelope is returned as it is, with the store left alone
    ensures LookupOf(ReadResult(entries, id, readFault)).Hit? ==>
              s.result == Success(LookupOf(ReadResult(entries, id, readFault)).wrapper.item) && s.entries == entries
    // a read error that is not "not found" (a parse failure included) propagates, nothing written
    ensures LookupOf(ReadResult(entries, id, readFault)).Fail? ==>
              s.result == Failure(LookupOf(ReadResult(entries, id, readFault)).error) && s.entries == entries
    // a failing producer or a failing write fails the lookup and writes nothing
    ensures s.fetched && fetch.Failure? ==> s.result == fetch && s.entries == entries
    ensures s.fetched && fetch.Success? && writeFault.Some? ==> s.result == Failure(writeFault.value) && s.entries == entries
    // a miss whose producer succeeds and whose write is accepted returns the item and persists it
    ensures s.fetched && fetch.Success? && writeFault.None? ==>
              s.result == fetch && s.entries == entries[id := Envelope(Wrapper(fetch.value, now))]
    // a successful miss persists the fresh envelope under `id` and returns its item
    ensures s.fetched && s.result.Success? ==>
              s.result == fetch && s.entries == entries[id := Envelope(Wrapper(fetch.value, now))]
    // whatever is returned is what the store now holds under `id`
    ensures s.result.Success? ==> id in s.entries && s.entries[id].Envelope? && s.entries[id].wrapper.item == s.result.value
    // no other key changes
    ensures s.entries - {id} == entries - {id}
  {
    match LookupOf(ReadResult(entries, id, readFault))
    case Fail(e) => Step(Failure(e), false, entries)
    case Hit(w) => Step(Success(w.item), false, entries)
    case Miss =>
      match fetch
      case Failure(e) => Step(Failure(e), true, entries)
      case Success(item) =>
        if writeFault.Some? then Step(Failure(writeFault.value), true, entries)
        else Step(Success(item), true, entries[id := Envelope(Wrapper(item, now))])
  }

  /** The key-value store shared by every lookup, with its contents as JSON-parsed texts. */
  class Store<T> {
    var entries: map<string, Stored<T>>

    /** Opens the store with the envelopes earlier runs left in it. */
    constructor (initial: map<string, Stored<T>>)
      ensures entries == initial
    {
      entries := initial;
    }

    /** `db.get(key)`. */
    method Read(key: string, fault: Option<Error>) returns (r: Result<Stored<T>, Error>)
      ensures r == ReadResult(entries, key, fault)
    {
      r := ReadResult(entries, key, fault);
    }

    /** `db.put(key, JSON.stringify(w))`: a write the store refuses leaves it as it was. */
    method Put(key: string, w: Wrapper<T>, fault: Option<Error>) returns (failure: Option<Error>)
      modifies this
      ensures failure == fault
      ensures entries == if fault.None? then old(entries)[key := Envelope(w)] else old(entries)
    {
      failure := fault;
      if fault.None? {
        entries := entries[key := Envelope(w)];
      }
    }

    /** `get(id, fetch)`; `fetched` says whether the producer was invoked. */
    method Get(id: string, fetch: () -> Result<T, Error>, now: int,
               readFault: Option<Error>, writeFault: Option<Error>)
      returns (r: Result<T, Error>, fetched: bool)
      modifies this
      ensures Step(r, fetched, entries) == GetSpec(old(entries), id, fetch(), now, readFault, writeFault)
    {
      var read := Read(id, readFault);
      var wrapper: Option<Wrapper<T>>;
      match LookupOf(read) {
        case Fail(e) =>
          return Failure(e), false;
        case Hit(w) =>
          wrapper := Some(w);
        case Miss =>
          wrapper := None;
      }

      fetched := false;
      if wrapper.None? {
        fetched := true;
        var item := fetch();
        if item.Failure? {
          return Failure(item.error), fetched;
        }
        wrapper := Some(Wrapper(item.value, now));
        var failure := Put(id, wrapper.value, writeFault);
        if failure.Some? {
          return Failure(failure.value), fetched;
        }
      }
      r := Success(wrapper.value.item);
    }
  }

  // ----- Lookups in sequence -----

  /** Once a lookup has returned an item, the next lookup of the same key (with a read that
      does not fail) returns that same item, does not run its producer, whatever it would
      yield, and leaves the store as it is. */
  lemma SecondGetHits<T>(entries: map<string, Stored<T>>, id: string,
                         fetch: Result<T, Error>, now: int, readFault: Option<Error>, writeFault: Option<Error>,
                         fetch': Result<T, Error>, now': int, writeFault': Option<Error>)
    requires GetSpec(entries, id, fetch, now, readFault, writeFault).result.Success?
    ensures var first := GetSpec(entries, id, fetch, now, readFault, writeFault);
            var second := GetSpec(first.entries, id, fetch', now', None, writeFault');
            second == Step(first.result, false, first.entries)
  {
  }

  /** An absent key, or a text that parses to a falsy value, is a miss: the producer runs. */
  lemma AbsentOrFalsyIsMiss<T>(entries: map<string, Stored<T>>, id: string, fetch: Result<T, Error>, now: int,
                               writeFault: Option<Error>)
    requires id !in entries || entries[id].FalsyJson?
    ensures GetSpec(entries, id, fetch, now, None, writeFault).fetched
  {
  }

  /** A fault whose reason is blank or flagged not-found is taken for a miss as well; any other
      fault is fatal. */
  lemma ReadFaultClassified<T>(entries: map<string, Stored<T>>, id: string, fetch: Result<T, Error>, now: int,
                               e: Error, writeFault: Option<Error>)
    ensures var s := GetSpec(entries, id, fetch, now, Some(e), writeFault);
            && (s.fetched <==> !Rethrown(e))
            && (Rethrown(e) ==> s == Step(Failure(e), false, entries))
            && (e.StoreFault? && !e.notFound ==> s == Step(Failure(e), false, entries))
  {
  }

  /** A stored text that does not parse is fatal: no producer, no write. */
  lemma UnparsableIsFatal<T>(entries: map<string, Stored<T>>, id: string, fetch: Result<T, Error>, now: int,
                             writeFault: Option<Error>)
    requires id in entries && entries[id].Unparsable?
    ensures GetSpec(entries, id, fetch, now, None, writeFault) ==
            Step(Failure(SyntaxError(entries[id].message)), false, entries)
  {
  }
}
