/**
 * The search-history ledger kept by the backend: a list of at most ten recent
 * searches, most recent first, at most one per city (cities compared without
 * regard to case), stored in a file that may be missing or unreadable.
 */
module History {
  import opened Wrappers
  import opened Text
  import opened Weather

  /** The number of searches the ledger keeps. */
  const Capacity := 10

  /** One remembered search; the temperature is rounded to a whole degree. */
  datatype Entry = Entry(city: string, country: string, temp: int, condition: string, timestamp: string)

  /**
   * The entry `saveToHistory` builds: the city as given, the country, the
   * rounded temperature and the condition category as the provider sent it,
   * stamped with the time of the search.
   */
  function NewEntry(city: string, w: Reading, now: string): (e: Entry)
    ensures e.city == city && e.country == w.country && e.condition == w.condition
    ensures e.timestamp == now
    ensures w.temp - 0.5 < e.temp as real <= w.temp + 0.5
  {
    Entry(city, w.country, Round(w.temp), w.condition, now)
  }

  /** Two city names match when they are equal after lower-casing. */
  predicate SameCity(a: string, b: string) {
    Lower(a) == Lower(b)
  }

  function Min(a: int, b: int): int {
    if a <= b then a else b
  }

  /** The entries whose city does not match `city`, in their original order. */
  function RemoveCity(s: seq<Entry>, city: string): (r: seq<Entry>)
    ensures |r| <= |s|
    ensures forall e :: e in r <==> e in s && !SameCity(e.city, city)
  {
    if s == [] then []
    else if SameCity(s[0].city, city) then RemoveCity(s[1..], city)
    else [s[0]] + RemoveCity(s[1..], city)
  }

  /** Filtering distributes over concatenation, so the kept entries stay in order. */
  lemma {:induction false} RemoveCityConcat(a: seq<Entry>, b: seq<Entry>, city: string)
    ensures RemoveCity(a + b, city) == RemoveCity(a, city) + RemoveCity(b, city)
  {
    if a == [] {
      assert a + b == b;
    } else {
      assert (a + b)[0] == a[0];
      assert (a + b)[1..] == a[1..] + b;
      RemoveCityConcat(a[1..], b, city);
    }
  }

  /** When no entry matches, filtering changes nothing. */
  lemma {:induction false} RemoveCityNoMatch(s: seq<Entry>, city: string)
    requires forall i | 0 <= i < |s| :: !SameCity(s[i].city, city)
    ensures RemoveCity(s, city) == s
  {
    if s != [] {
      assert forall i | 0 <= i < |s| - 1 :: s[1..][i] == s[i + 1];
      RemoveCityNoMatch(s[1..], city);
    }
  }

  /** The first `n` elements of `s`, or all of them when there are fewer. */
  function Take<T>(s: seq<T>, n: nat): (r: seq<T>)
    ensures |r| == Min(n, |s|)
    ensures forall i | 0 <= i < |r| :: r[i] == s[i]
  {
    s[..Min(n, |s|)]
  }

  /**
   * `saveToHistory` on the list itself: drop the entries for the same city,
   * put the new entry in front and keep the first ten.
   */
  function Recorded(searches: seq<Entry>, e: Entry): (r: seq<Entry>)
    ensures 1 <= |r| <= Capacity && r[0] == e
    ensures forall i | 1 <= i < |r| :: r[i] in searches && !SameCity(r[i].city, e.city)
  {
    Take([e] + RemoveCity(searches, e.city), Capacity)
  }

  /**
   * The list after a search: at most ten entries, the new one first, and
   * behind it the old entries of other cities, in their old order, cut to nine.
   */
  lemma RecordedShape(searches: seq<Entry>, e: Entry)
    ensures 1 <= |Recorded(searches, e)| <= Capacity
    ensures Recorded(searches, e)[0] == e
    ensures Recorded(searches, e)[1..] == Take(RemoveCity(searches, e.city), Capacity - 1)
  {
    var r := Recorded(searches, e);
    var kept := RemoveCity(searches, e.city);
    assert r[1..] == kept[..Min(Capacity - 1, |kept|)];
  }

  /** No later entry has the new entry's city, in any casing. */
  lemma RecordedDropsDuplicates(searches: seq<Entry>, e: Entry)
    ensures forall i | 1 <= i < |Recorded(searches, e)| :: !SameCity(Recorded(searches, e)[i].city, e.city)
  {
    var r := Recorded(searches, e);
    var kept := RemoveCity(searches, e.city);
    forall i | 1 <= i < |r| ensures !SameCity(r[i].city, e.city) {
      assert r[i] == kept[i - 1];
      assert kept[i - 1] in kept;
    }
  }

  /** Every entry has a city of its own: no two entries match. */
  predicate UniqueCities(s: seq<Entry>) {
    forall i, j | 0 <= i < j < |s| :: !SameCity(s[i].city, s[j].city)
  }

  /** Dropping the first entry keeps the cities distinct. */
  lemma UniqueTail(s: seq<Entry>)
    requires s != [] && UniqueCities(s)
    ensures UniqueCities(s[1..])
  {
    forall i, j | 0 <= i < j < |s| - 1 ensures !SameCity(s[1..][i].city, s[1..][j].city) {
      assert s[1..][i] == s[i + 1] && s[1..][j] == s[j + 1];
    }
  }

  /** The first entry's city appears nowhere after it. */
  lemma UniqueHead(s: seq<Entry>, x: Entry)
    requires s != [] && UniqueCities(s)
    requires x in s[1..]
    ensures !SameCity(s[0].city, x.city)
  {
    var m :| 0 <= m < |s| - 1 && s[1..][m] == x;
    assert s[m + 1] == x;
  }

  /** An entry whose city is new, in front of a list of distinct cities, keeps them distinct. */
  lemma UniqueCons(x: Entry, t: seq<Entry>)
    requires UniqueCities(t)
    requires forall y | y in t :: !SameCity(x.city, y.city)
    ensures UniqueCities([x] + t)
  {
    var r := [x] + t;
    forall i, j | 0 <= i < j < |r| ensures !SameCity(r[i].city, r[j].city) {
      assert r[j] == t[j - 1];
      if i == 0 {
        assert t[j - 1] in t;
      } else {
        assert r[i] == t[i - 1];
      }
    }
  }

  /** Filtering a list with one entry per city leaves one entry per city. */
  lemma {:induction false} RemoveCityUnique(s: seq<Entry>, city: string)
    requires UniqueCities(s)
    ensures UniqueCities(RemoveCity(s, city))
  {
    if s != [] {
      UniqueTail(s);
      RemoveCityUnique(s[1..], city);
      if !SameCity(s[0].city, city) {
        var tail := RemoveCity(s[1..], city);
        forall y | y in tail ensures !SameCity(s[0].city, y.city) {
          UniqueHead(s, y);
        }
        UniqueCons(s[0], tail);
      }
    }
  }

  /** A search keeps the ledger at one entry per city. */
  lemma RecordedKeepsUnique(searches: seq<Entry>, e: Entry)
    requires UniqueCities(searches)
    ensures UniqueCities(Recorded(searches, e))
  {
    var kept := RemoveCity(searches, e.city);
    RemoveCityUnique(searches, e.city);
    RecordedDropsDuplicates(searches, e);
    var r := Recorded(searches, e);
    forall i, j | 0 <= i < j < |r| ensures !SameCity(r[i].city, r[j].city) {
      if i > 0 {
        assert r[i] == kept[i - 1] && r[j] == kept[j - 1];
      }
    }
  }

  /** Searching a city again replaces its earlier entry: only the latest search counts. */
  lemma MostRecentWins(searches: seq<Entry>, e1: Entry, e2: Entry)
    requires SameCity(e1.city, e2.city)
    ensures Recorded(Recorded(searches, e1), e2) == Recorded(searches, e2)
  {
    var kept := RemoveCity(searches, e1.city);
    RemoveCityAgree(searches, e1.city, e2.city);
    var short := Take(kept, Capacity - 1);
    var once := Recorded(searches, e1);
    RecordedShape(searches, e1);
    assert once == [e1] + short;
    RemoveCityConcat([e1], short, e2.city);
    assert RemoveCity([e1], e2.city) == [] by {
      assert [e1][1..] == [];
    }
    forall i | 0 <= i < |short| ensures !SameCity(short[i].city, e2.city) {
      assert short[i] == kept[i] && kept[i] in kept;
    }
    RemoveCityNoMatch(short, e2.city);
    assert [] + short == short;
    assert RemoveCity(once, e2.city) == short;
    assert Recorded(once, e2) == [e2] + short;
    RecordedShape(searches, e2);
  }

  /** Filtering by two matching city names gives the same list. */
  lemma {:induction false} RemoveCityAgree(s: seq<Entry>, c1: string, c2: string)
    requires Lower(c1) == Lower(c2)
    ensures RemoveCity(s, c1) == RemoveCity(s, c2)
  {
    if s != [] {
      RemoveCityAgree(s[1..], c1, c2);
    }
  }

  /** The ledger after recording `entries` one after another, starting from `searches`. */
  function RecordAll(searches: seq<Entry>, entries: seq<Entry>): seq<Entry> {
    if entries == [] then searches
    else Recorded(RecordAll(searches, entries[..|entries| - 1]), entries[|entries| - 1])
  }

  function Reverse<T>(s: seq<T>): (r: seq<T>)
    ensures |r| == |s|
    ensures forall i | 0 <= i < |s| :: r[i] == s[|s| - 1 - i]
  {
    if s == [] then [] else [s[|s| - 1]] + Reverse(s[..|s| - 1])
  }

  /** No two of `entries` name the same city. */
  predicate DistinctCities(entries: seq<Entry>) {
    forall i, j | 0 <= i < j < |entries| :: !SameCity(entries[i].city, entries[j].city)
  }

  /** Cutting to ten before or after putting an entry in front gives the same list. */
  lemma TakeConsTake(e: Entry, s: seq<Entry>)
    ensures Take([e] + Take(s, Capacity), Capacity) == Take([e] + s, Capacity)
  {
    var a := Take([e] + Take(s, Capacity), Capacity);
    var b := Take([e] + s, Capacity);
    assert |a| == |b|;
    forall i | 0 <= i < |a| ensures a[i] == b[i] {
      if i > 0 {
        assert a[i] == Take(s, Capacity)[i - 1] == s[i - 1];
      }
    }
  }

  /**
   * Searching distinct cities from an empty ledger keeps the last ten of them,
   * the most recent first.
   */
  lemma {:induction false} RecordAllDistinct(entries: seq<Entry>)
    requires DistinctCities(entries)
    ensures RecordAll([], entries) == Take(Reverse(entries), Capacity)
  {
    if entries != [] {
      var n := |entries| - 1;
      var front := entries[..n];
      var e := entries[n];
      assert DistinctCities(front) by {
        assert forall i | 0 <= i < n :: front[i] == entries[i];
      }
      RecordAllDistinct(front);
      var before := Take(Reverse(front), Capacity);
      forall i | 0 <= i < |before| ensures !SameCity(before[i].city, e.city) {
        assert before[i] == front[n - 1 - i] == entries[n - 1 - i];
      }
      RemoveCityNoMatch(before, e.city);
      assert RecordAll([], entries) == Take([e] + before, Capacity);
      assert Reverse(entries) == [e] + Reverse(front);
      TakeConsTake(e, Reverse(front));
    }
  }

  /** Two searches of matching names from an empty ledger leave one entry, under the later spelling. */
  lemma TwiceFromEmpty(first: Entry, second: Entry)
    requires SameCity(first.city, second.city)
    ensures Recorded(Recorded([], first), second) == [second]
  {
    MostRecentWins([], first, second);
    assert Recorded([], second) == [second] by {
      assert RemoveCity([], second.city) == [];
    }
  }

  /** Searching "Tokyo" and then "TOKYO" leaves one entry, under the later spelling. */
  lemma TokyoTwice(w: Reading, t1: string, t2: string)
    ensures Recorded(Recorded([], NewEntry("Tokyo", w, t1)), NewEntry("TOKYO", w, t2))
         == [NewEntry("TOKYO", w, t2)]
  {
    assert Lower("Tokyo") == Lower("TOKYO");
    TwiceFromEmpty(NewEntry("Tokyo", w, t1), NewEntry("TOKYO", w, t2));
  }

  /** Case is ignored beyond ASCII too: "Zürich" and then "ZÜRICH" leave one entry. */
  lemma ZurichTwice(w: Reading, t1: string, t2: string)
    ensures Recorded(Recorded([], NewEntry("Zürich", w, t1)), NewEntry("ZÜRICH", w, t2))
         == [NewEntry("ZÜRICH", w, t2)]
  {
    assert Lower("Zürich") == Lower("ZÜRICH");
    TwiceFromEmpty(NewEntry("Zürich", w, t1), NewEntry("ZÜRICH", w, t2));
  }

  /** What the history file holds: nothing yet, something that does not parse, or a list of searches. */
  datatype Store = Missing | Unreadable | Readable

  /**
   * How a `writeFileSync` of the history file ends: the whole text written;
   * refused before the file is opened, which leaves it as it was; or failed
   * after opening has emptied it, which leaves an empty or cut-short text.
   * No proper prefix of the JSON text of an object parses, so such a file is
   * unreadable from then on.
   */
  datatype Write = Written | Refused | Interrupted

  /**
   * The history file. `searches` is its list of entries, meaningful only when
   * the file is readable; a missing or unreadable file has none.
   */
  class Ledger {
    var store: Store
    var searches: seq<Entry>

    predicate Valid()
      reads this
    {
      store != Readable ==> searches == []
    }

    constructor(store: Store, searches: seq<Entry>)
      requires store != Readable ==> searches == []
      ensures Valid()
      ensures this.store == store && this.searches == searches
    {
      this.store := store;
      this.searches := searches;
    }

    /**
     * `GET /api/history`: the stored list, or an empty list when the file is
     * missing or does not parse.
     */
    function History(): (r: seq<Entry>)
      reads this
      ensures store != Readable ==> r == []
      ensures store == Readable ==> r == searches
    {
      if store == Readable then searches else []
    }

    /**
     * `saveToHistory`: read the list (empty when there is no file), drop the
     * entries of the same city, put the new entry in front, keep ten and write
     * the list back. An unreadable file makes the read throw before anything is
     * written; a write refused at opening leaves the file as it was; a write
     * that fails after opening has emptied the file leaves it unreadable. The
     * errors are swallowed.
     */
    method Record(city: string, w: Reading, now: string, write: Write)
      requires Valid()
      modifies this
      ensures Valid()
      ensures old(store) == Unreadable || write == Refused ==>
        store == old(store) && searches == old(searches)
      ensures old(store) != Unreadable && write == Interrupted ==>
        store == Unreadable && searches == []
      ensures old(store) != Unreadable && write == Written ==>
        store == Readable && searches == Recorded(old(History()), NewEntry(city, w, now))
    {
      if store == Unreadable {
        return;
      }
      var history: seq<Entry> := [];
      if store == Readable {
        history := searches;
      }
      var entry := NewEntry(city, w, now);
      history := RemoveCity(history, city);
      history := [entry] + history;
      history := history[..Min(Capacity, |history|)];
      match write
      case Written =>
        store := Readable;
        searches := history;
      case Refused =>
      case Interrupted =>
        store := Unreadable;
        searches := [];
    }

    /**
     * `DELETE /api/history`: overwrite the file with an empty list. It answers
     * 200 with "History cleared", or 500 with "Failed to clear history" when
     * the write fails; a refused write leaves the file as it was, an
     * interrupted one leaves it unreadable.
     */
    method Clear(write: Write) returns (status: int, message: string)
      requires Valid()
      modifies this
      ensures Valid()
      ensures write == Written ==> store == Readable && searches == [] && History() == []
      ensures write == Refused ==> store == old(store) && searches == old(searches)
      ensures write == Interrupted ==> store == Unreadable && History() == []
      ensures status == (if write == Written then 200 else 500)
      ensures message == (if write == Written then "History cleared" else "Failed to clear history")
    {
      match write
      case Written =>
        store := Readable;
        searches := [];
        status, message := 200, "History cleared";
      case Refused =>
        status, message := 500, "Failed to clear history";
      case Interrupted =>
        store := Unreadable;
        searches := [];
        status, message := 500, "Failed to clear history";
    }
  }

  /**
   * What the weather provider answered to a lookup: a reading; `NotFound` for
   * any answer that is not OK (an unknown place, but also a bad key or a rate
   * limit, all of which the routes report as 404); or `Failed` when the
   * request itself threw.
   */
  datatype Lookup = Found(reading: Reading) | NotFound | Failed

  /** A route's answer: the reading, or an error status with its message. */
  datatype Reply = Answer(reading: Reading) | Error(status: int, message: string)

  /**
   * `GET /api/weather/:city`: on success the search is recorded under the city
   * as typed and the reading returned; an unknown city gives 404, a failed
   * lookup 500, and neither touches the history.
   */
  method WeatherByCity(ledger: Ledger, city: string, answer: Lookup, now: string, write: Write)
    returns (reply: Reply)
    requires ledger.Valid()
    modifies ledger
    ensures ledger.Valid()
    ensures answer.Found? ==> reply == Answer(answer.reading)
    ensures answer.NotFound? ==> reply == Error(404, "City not found")
    ensures answer.Failed? ==> reply == Error(500, "Server error")
    ensures answer.Found? && old(ledger.store) != Unreadable && write == Written ==>
      ledger.History() == Recorded(old(ledger.History()), NewEntry(city, answer.reading, now))
    ensures answer.Found? && old(ledger.store) != Unreadable && write == Interrupted ==>
      ledger.store == Unreadable && ledger.History() == []
    ensures !answer.Found? || old(ledger.store) == Unreadable || write == Refused ==>
      ledger.store == old(ledger.store) && ledger.searches == old(ledger.searches)
  {
    match answer
    case NotFound => reply := Error(404, "City not found");
    case Failed => reply := Error(500, "Server error");
    case Found(data) =>
      ledger.Record(city, data, now, write);
      reply := Answer(data);
  }

  /**
   * `GET /api/weather-coords/:lat/:lon`: like the city route, but the search is
   * recorded under the place name the provider returned.
   */
  method WeatherByCoordinates(ledger: Ledger, answer: Lookup, now: string, write: Write)
    returns (reply: Reply)
    requires ledger.Valid()
    modifies ledger
    ensures ledger.Valid()
    ensures answer.Found? ==> reply == Answer(answer.reading)
    ensures answer.NotFound? ==> reply == Error(404, "Location not found")
    ensures answer.Failed? ==> reply == Error(500, "Server error")
    ensures answer.Found? && old(ledger.store) != Unreadable && write == Written ==>
      ledger.History()
        == Recorded(old(ledger.History()), NewEntry(answer.reading.name, answer.reading, now))
    ensures answer.Found? && old(ledger.store) != Unreadable && write == Interrupted ==>
      ledger.store == Unreadable && ledger.History() == []
    ensures !answer.Found? || old(ledger.store) == Unreadable || write == Refused ==>
      ledger.store == old(ledger.store) && ledger.searches == old(ledger.searches)
  {
    match answer
    case NotFound => reply := Error(404, "Location not found");
    case Failed => reply := Error(500, "Server error");
    case Found(data) =>
      ledger.Record(data.name, data, now, write);
      reply := Answer(data);
  }
}
