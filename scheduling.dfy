/** The combination generator (module/scheduling_logic.py): the Cartesian product of the
    selected courses' sections, the internal conflict check of each tuple, and the resolution
    of corequisite sections with a frontier of provisional combinations. */
module Scheduling {
  import opened Wrappers
  import opened Text
  import opened Sorting
  import opened Sections
  import opened Utils

  // ---------------------------------------------------------------------------------------
  // itertools.product

  /** `[x] + t` for every `t`, in order. */
  function Prefixed<T>(x: T, tails: seq<seq<T>>): (r: seq<seq<T>>)
    ensures |r| == |tails| && forall i :: 0 <= i < |tails| ==> r[i] == [x] + tails[i]
  {
    seq(|tails|, i requires 0 <= i < |tails| => [x] + tails[i])
  }

  /** Every choice of a first element from `xs`, in order, each followed by every tail. */
  function Choose<T>(xs: seq<T>, tails: seq<seq<T>>): seq<seq<T>>
    decreases |xs|
  {
    if xs == [] then [] else Prefixed(xs[0], tails) + Choose(xs[1..], tails)
  }

  /** `product(*lists)`: the tuples taking one element from each list, the last list varying
      fastest; the product of no lists is one empty tuple. It has as many tuples as the
      product of the list lengths. */
  function Product<T>(lists: seq<seq<T>>): (r: seq<seq<T>>)
    ensures |r| == LengthProduct(lists)
    decreases |lists|
  {
    if lists == [] then [[]]
    else
      ChooseLength(lists[0], Product(lists[1..]));
      Choose(lists[0], Product(lists[1..]))
  }

  function LengthProduct<T>(lists: seq<seq<T>>): nat
    decreases |lists|
  {
    if lists == [] then 1 else |lists[0]| * LengthProduct(lists[1..])
  }

  lemma {:induction false} ChooseLength<T>(xs: seq<T>, tails: seq<seq<T>>)
    ensures |Choose(xs, tails)| == |xs| * |tails|
    decreases |xs|
  {
    if xs != [] {
      ChooseLength(xs[1..], tails);
      assert |Choose(xs, tails)| == |tails| + (|xs| - 1) * |tails|;
      assert |tails| + (|xs| - 1) * |tails| == |xs| * |tails|;
    }
  }

  lemma {:induction false} ChooseMembers<T>(xs: seq<T>, tails: seq<seq<T>>, t: seq<T>)
    ensures t in Choose(xs, tails) <==> |t| >= 1 && t[0] in xs && t[1..] in tails
    decreases |xs|
  {
    if xs != [] {
      ChooseMembers(xs[1..], tails, t);
      assert t in Prefixed(xs[0], tails) <==> |t| >= 1 && t[0] == xs[0] && t[1..] in tails by {
        if |t| >= 1 && t[0] == xs[0] && t[1..] in tails {
          var i :| 0 <= i < |tails| && tails[i] == t[1..];
          assert Prefixed(xs[0], tails)[i] == t;
        }
      }
      if |t| >= 1 {
        assert t[0] in xs <==> t[0] == xs[0] || t[0] in xs[1..] by {
          assert xs == [xs[0]] + xs[1..];
        }
      }
    }
  }

  /** A tuple is in the product exactly when it has one element per list, each from its list. */
  lemma {:induction false} ProductMembers<T>(lists: seq<seq<T>>, t: seq<T>)
    ensures t in Product(lists) <==> |t| == |lists| && forall i :: 0 <= i < |t| ==> t[i] in lists[i]
    decreases |lists|
  {
    if lists != [] {
      ChooseMembers(lists[0], Product(lists[1..]), t);
      if |t| >= 1 {
        ProductMembers(lists[1..], t[1..]);
        if |t| == |lists| {
          if t[0] in lists[0] && t[1..] in Product(lists[1..]) {
            forall i | 1 <= i < |t| ensures t[i] in lists[i] {
              assert t[1..][i - 1] in lists[1..][i - 1];
            }
          }
          if forall i :: 0 <= i < |t| ==> t[i] in lists[i] {
            forall i | 0 <= i < |t[1..]| ensures t[1..][i] in lists[1..][i] {
              assert t[i + 1] in lists[i + 1];
            }
          }
        }
      }
    } else {
      assert t in [[]] <==> t == [];
    }
  }

  /** The first element of each list. */
  function Firsts<T>(lists: seq<seq<T>>): (r: seq<T>)
    requires forall i :: 0 <= i < |lists| ==> |lists[i]| >= 1
    ensures |r| == |lists| && forall i :: 0 <= i < |lists| ==> r[i] == lists[i][0]
  {
    seq(|lists|, i requires 0 <= i < |lists| => lists[i][0])
  }

  /** Lists of one element each give exactly one tuple. */
  lemma {:induction false} ProductOfSingletons<T>(lists: seq<seq<T>>)
    requires forall i :: 0 <= i < |lists| ==> |lists[i]| == 1
    ensures Product(lists) == [Firsts(lists)]
    decreases |lists|
  {
    if lists != [] {
      ProductOfSingletons(lists[1..]);
      var rest := Firsts(lists[1..]);
      assert Product(lists) == Choose(lists[0], [rest]);
      assert lists[0][1..] == [];
      assert Choose(lists[0][1..], [rest]) == [];
      assert Choose(lists[0], [rest]) == Prefixed(lists[0][0], [rest]);
      assert Prefixed(lists[0][0], [rest]) == [[lists[0][0]] + rest];
      assert [lists[0][0]] + rest == Firsts(lists);
    } else {
      assert Firsts(lists) == [];
    }
  }

  /** Concatenation of a list of lists. */
  function Flatten<T>(xss: seq<seq<T>>): (r: seq<T>)
    decreases |xss|
  {
    if xss == [] then [] else xss[0] + Flatten(xss[1..])
  }

  lemma {:induction false} FlattenSnoc<T>(xss: seq<seq<T>>, xs: seq<T>)
    ensures Flatten(xss + [xs]) == Flatten(xss) + xs
    decreases |xss|
  {
    if xss == [] {
      assert [] + [xs] == [xs];
    } else {
      assert (xss + [xs])[1..] == xss[1..] + [xs];
      FlattenSnoc(xss[1..], xs);
    }
  }

  lemma {:induction false} FlattenMembers<T>(xss: seq<seq<T>>, x: T)
    ensures x in Flatten(xss) <==> exists i :: 0 <= i < |xss| && x in xss[i]
    decreases |xss|
  {
    if xss != [] {
      FlattenMembers(xss[1..], x);
      if x in Flatten(xss[1..]) {
        var i :| 0 <= i < |xss[1..]| && x in xss[1..][i];
        assert x in xss[i + 1];
      }
      if exists i :: 0 <= i < |xss| && x in xss[i] {
        var i :| 0 <= i < |xss| && x in xss[i];
        if i > 0 { assert x in xss[1..][i - 1]; }
      }
    }
  }

  // ---------------------------------------------------------------------------------------
  // get_coreqs and the corequisite lookup

  /** `Coreq_Sections` split on exactly `', '`, or no ids when the field is empty. */
  function GetCoreqs(s: Section): (ids: seq<string>)
    ensures s.coreqSections == "" <==> ids == []
    ensures Join(ids, ", ") == s.coreqSections
  {
    if s.coreqSections == "" then []
    else
      JoinSplit(s.coreqSections, ", ");
      Split(s.coreqSections, ", ")
  }

  /** A corequisite id as compared: stripped and upper-cased. */
  function NormId(raw: string): string
  {
    Upper(Strip(raw))
  }

  /** A section's name, normalised the same way. */
  function NormName(s: Section): string
  {
    NormId(s.name)
  }

  /** The course of a section id: everything before its last dash. */
  function CourseOf(id: string): string
  {
    BeforeLast(id, '-')
  }

  /** The records of `rows` whose normalised name is `id`, in order. */
  function Matches(rows: seq<Section>, id: string): (r: seq<Section>)
    ensures forall x :: x in r <==> x in rows && NormName(x) == id
    decreases |rows|
  {
    if rows == [] then []
    else if NormName(rows[0]) == id then [rows[0]] + Matches(rows[1..], id)
    else Matches(rows[1..], id)
  }

  /** The first match is the first record of `rows` with that name. */
  lemma {:induction false} MatchesHead(rows: seq<Section>, id: string)
    requires Matches(rows, id) != []
    ensures exists k :: 0 <= k < |rows| && rows[k] == Matches(rows, id)[0]
                     && forall k' :: 0 <= k' < k ==> NormName(rows[k']) != id
    decreases |rows|
  {
    if NormName(rows[0]) == id {
      assert rows[0] == Matches(rows, id)[0];
    } else {
      assert Matches(rows, id) == Matches(rows[1..], id);
      MatchesHead(rows[1..], id);
      var k :| 0 <= k < |rows[1..]| && rows[1..][k] == Matches(rows[1..], id)[0]
        && forall k' :: 0 <= k' < k ==> NormName(rows[1..][k']) != id;
      assert rows[k + 1] == Matches(rows, id)[0];
      forall k' | 0 <= k' < k + 1 ensures NormName(rows[k']) != id {
        if k' > 0 { assert rows[k'] == rows[1..][k' - 1]; }
      }
    }
  }

  /** Abstract stand-in for the catalog query: the sections of a course, or the message of the
      exception the query raised. */
  type Lookup = string -> Result<seq<Section>>

  /** `str(KeyError('Name'))`: what indexing the `Name` column of an empty result raises. */
  const NameKeyError := "'Name'"

  /** Fetch the records of one corequisite id: query its course, fail as the original does when
      the query fails or returns nothing, and keep the records whose normalised name is the id. */
  function FetchCoreq(lookup: Lookup, id: string): (r: Result<seq<Section>>)
    ensures lookup(CourseOf(id)).Err? ==> r == Err(lookup(CourseOf(id)).msg)
    ensures lookup(CourseOf(id)) == Ok([]) ==> r == Err(NameKeyError)
    ensures r.Ok? ==> lookup(CourseOf(id)).Ok?
    ensures r.Ok? ==> forall x :: x in r.value <==> x in lookup(CourseOf(id)).value && NormName(x) == id
  {
    match lookup(CourseOf(id))
    case Err(m) => Err(m)
    case Ok(rows) => if rows == [] then Err(NameKeyError) else Ok(Matches(rows, id))
  }

  /** `coreq_cache`: ids already fetched, with their matching records. */
  type Cache = map<string, seq<Section>>

  /** Every cached entry is what the lookup gives for its id. */
  ghost predicate CacheFaithful(cache: Cache, lookup: Lookup)
  {
    forall id :: id in cache ==> FetchCoreq(lookup, id) == Ok(cache[id])
  }

  /** `cache` keeps every entry of `old`. */
  ghost predicate CacheExtends(cache: Cache, older: Cache)
  {
    forall id :: id in older ==> id in cache && cache[id] == older[id]
  }

  /** `fetched` lists, without repeats, the ids that `cache` holds and `older` did not. */
  ghost predicate FetchLog(fetched: seq<string>, cache: Cache, older: Cache)
  {
    && (forall i, j :: 0 <= i < j < |fetched| ==> fetched[i] != fetched[j])
    && (forall i :: 0 <= i < |fetched| ==> fetched[i] in cache && fetched[i] !in older)
  }

  lemma FetchLogAppend(a: seq<string>, b: seq<string>, c0: Cache, c1: Cache, c2: Cache)
    requires FetchLog(a, c1, c0) && FetchLog(b, c2, c1)
    requires CacheExtends(c1, c0) && CacheExtends(c2, c1)
    ensures FetchLog(a + b, c2, c0)
  {
    var ab := a + b;
    forall i, j | 0 <= i < j < |ab| ensures ab[i] != ab[j] {
      if i < |a| && |a| <= j {
        assert ab[i] == a[i] && ab[j] == b[j - |a|];
      }
    }
  }

  // ---------------------------------------------------------------------------------------
  // The frontier of provisional combinations

  /** The incremental check finds no conflict between `c` and any member of `e`. */
  predicate FitsWith(e: seq<Section>, c: Section)
    requires AllParsed(e) && Parsed(c)
  {
    forall k :: 0 <= k < |e| ==> CheckTimeConflict(e[k], c) == Ok(false)
  }

  /** The combinations the loop over provisional combinations adds for one corequisite record,
      from position `f` of the frontier on: each provisional combination (annotated) that the
      incremental check passes, extended by the annotated record, in order; the first exception
      from the check ends the loop. */
  function Extension(frontier: seq<seq<Section>>, coreq: Section, f: nat): seq<seq<Section>>
    decreases |frontier| - f
  {
    if f >= |frontier| then []
    else
      var e := ParseAll(frontier[f]);
      var ann := ParseSectionTimes(coreq);
      match FirstVerdict(e, ann)
      case Err(_) => []
      case Ok(clash) => (if clash then [] else [e + [ann]]) + Extension(frontier, coreq, f + 1)
  }

  /** The exception that ends that loop, if any: the first error the incremental check raises
      on a provisional combination from position `f` on. */
  function ExtensionFailure(frontier: seq<seq<Section>>, coreq: Section, f: nat): Option<string>
    decreases |frontier| - f
  {
    if f >= |frontier| then None
    else
      match FirstVerdict(ParseAll(frontier[f]), ParseSectionTimes(coreq))
      case Err(msg) => Some(msg)
      case Ok(_) => ExtensionFailure(frontier, coreq, f + 1)
  }

  /** Extension at a combination already annotated, by the verdict of the check on it. */
  lemma ExtensionAt(frontier: seq<seq<Section>>, coreq: Section, f: nat)
    requires f < |frontier| && AllParsed(frontier[f])
    ensures FirstVerdict(frontier[f], ParseSectionTimes(coreq)).Err? ==> Extension(frontier, coreq, f) == []
    ensures FirstVerdict(frontier[f], ParseSectionTimes(coreq)) == Ok(true) ==>
      Extension(frontier, coreq, f) == Extension(frontier, coreq, f + 1)
    ensures FirstVerdict(frontier[f], ParseSectionTimes(coreq)) == Ok(false) ==>
      Extension(frontier, coreq, f) == [frontier[f] + [ParseSectionTimes(coreq)]] + Extension(frontier, coreq, f + 1)
    ensures FirstVerdict(frontier[f], ParseSectionTimes(coreq)).Err? ==>
      ExtensionFailure(frontier, coreq, f) == Some(FirstVerdict(frontier[f], ParseSectionTimes(coreq)).msg)
    ensures FirstVerdict(frontier[f], ParseSectionTimes(coreq)).Ok? ==>
      ExtensionFailure(frontier, coreq, f) == ExtensionFailure(frontier, coreq, f + 1)
  {
    ParseAllOfParsed(frontier[f]);
  }

  /** Everything the loop adds is a provisional combination, from position `f` on, that the
      check passed, extended by the annotated record. */
  lemma {:induction false} ExtensionSound(frontier: seq<seq<Section>>, coreq: Section, f: nat)
    ensures forall a :: a in Extension(frontier, coreq, f) ==>
      exists p :: && f <= p < |frontier| && a == ParseAll(frontier[p]) + [ParseSectionTimes(coreq)]
                  && FirstVerdict(ParseAll(frontier[p]), ParseSectionTimes(coreq)) == Ok(false)
    decreases |frontier| - f
  {
    if f < |frontier| {
      ExtensionSound(frontier, coreq, f + 1);
    }
  }

  /** Every provisional combination the check passes is extended, unless the check raised on
      one before it. */
  lemma {:induction false} ExtensionComplete(frontier: seq<seq<Section>>, coreq: Section, f: nat, q: nat)
    requires f <= q < |frontier|
    requires forall p :: f <= p < q ==> FirstVerdict(ParseAll(frontier[p]), ParseSectionTimes(coreq)).Ok?
    requires FirstVerdict(ParseAll(frontier[q]), ParseSectionTimes(coreq)) == Ok(false)
    ensures ParseAll(frontier[q]) + [ParseSectionTimes(coreq)] in Extension(frontier, coreq, f)
    decreases q - f
  {
    var ann := ParseSectionTimes(coreq);
    var v := FirstVerdict(ParseAll(frontier[f]), ann);
    assert Extension(frontier, coreq, f) == (if v.value then [] else [ParseAll(frontier[f]) + [ann]])
                                            + Extension(frontier, coreq, f + 1);
    if f < q {
      ExtensionComplete(frontier, coreq, f + 1, q);
    }
  }

  /** The loop over provisional combinations for one corequisite record: every provisional
      combination that passes the incremental check against the record is extended by it, in
      order; an exception from the check at position `reached` ends the loop and keeps what was
      added before it. */
  method ExtendFrontier(frontier: seq<seq<Section>>, coreq: Section)
    returns (added: seq<seq<Section>>, failure: Option<string>, ghost reached: int)
    requires forall f :: 0 <= f < |frontier| ==> AllParsed(frontier[f])
    ensures added == Extension(frontier, coreq, 0)
    ensures failure == ExtensionFailure(frontier, coreq, 0)
    ensures 0 <= reached <= |frontier|
    ensures forall p :: 0 <= p < reached ==> FirstVerdict(frontier[p], ParseSectionTimes(coreq)).Ok?
    ensures failure.None? ==> reached == |frontier|
    ensures failure.Some? ==>
      reached < |frontier| && FirstVerdict(frontier[reached], ParseSectionTimes(coreq)) == Err(failure.value)
  {
    added, failure := [], None;
    var f: nat := 0;
    while f < |frontier|
      invariant f <= |frontier| && ExtendedUpTo(frontier, coreq, f, added)
    {
      var stop;
      added, stop := ExtendAt(frontier, coreq, f, added);
      if stop.Some? {
        failure, reached := stop, f;
        return;
      }
      f := f + 1;
    }
    reached := f;
  }

  /** The loop over provisional combinations has passed the first `f` of them without an
      exception, and `added` holds what they contributed. */
  ghost predicate ExtendedUpTo(frontier: seq<seq<Section>>, coreq: Section, f: nat, added: seq<seq<Section>>)
  {
    && f <= |frontier|
    && (forall q :: 0 <= q < |frontier| ==> AllParsed(frontier[q]))
    && (forall p :: 0 <= p < f ==> FirstVerdict(frontier[p], ParseSectionTimes(coreq)).Ok?)
    && Extension(frontier, coreq, 0) == added + Extension(frontier, coreq, f)
    && ExtensionFailure(frontier, coreq, 0) == ExtensionFailure(frontier, coreq, f)
  }

  /** One pass of that loop, at position `f`: the combination is extended when the check
      passes it; an exception from the check stops the loop. */
  method ExtendAt(frontier: seq<seq<Section>>, coreq: Section, f: nat, added0: seq<seq<Section>>)
    returns (added: seq<seq<Section>>, stop: Option<string>)
    requires f < |frontier| && AllParsed(frontier[f])
    ensures stop.Some? ==>
      && added == added0 && Extension(frontier, coreq, f) == []
      && FirstVerdict(frontier[f], ParseSectionTimes(coreq)) == Err(stop.value)
      && ExtensionFailure(frontier, coreq, f) == stop
    ensures stop.None? ==> ExtensionFailure(frontier, coreq, f) == ExtensionFailure(frontier, coreq, f + 1)
    ensures stop.None? ==>
      && FirstVerdict(frontier[f], ParseSectionTimes(coreq)).Ok?
      && added0 + Extension(frontier, coreq, f) == added + Extension(frontier, coreq, f + 1)
    ensures ExtendedUpTo(frontier, coreq, f, added0) && stop.None? ==> ExtendedUpTo(frontier, coreq, f + 1, added)
  {
    ExtensionAt(frontier, coreq, f);
    var r, extended := TryCandidate(frontier[f], coreq);
    added, stop := added0, None;
    match r
    case Err(msg) =>
      stop := Some(msg);
    case Ok(clash) =>
      if !clash {
        assert (added0 + [extended]) + Extension(frontier, coreq, f + 1)
            == added0 + ([extended] + Extension(frontier, coreq, f + 1));
        added := added0 + [extended];
      }
  }

  /** One provisional combination against one corequisite record: `has_time_conflict` on the
      (already annotated) combination, and the combination with the annotated record appended. */
  method TryCandidate(e: seq<Section>, coreq: Section) returns (r: Result<bool>, extended: seq<Section>)
    requires AllParsed(e)
    ensures extended == e + [ParseSectionTimes(coreq)]
    ensures r == FirstVerdict(e, ParseSectionTimes(coreq))
  {
    var annotated, annotatedNew;
    r, annotated, annotatedNew := HasConflictWith(e, coreq);
    ParseAllOfParsed(e);
    extended := annotated + [annotatedNew];
  }

  /** `e` is `base` followed by appended corequisite records. */
  predicate Extends(e: seq<Section>, base: seq<Section>)
  {
    |base| <= |e| && e[..|base|] == base
  }

  /** Each record appended after the first `n` passed the incremental check against everything
      before it. */
  ghost predicate AppendedClear(e: seq<Section>, n: nat)
  {
    AllParsed(e) && forall j, k :: n <= j < |e| && 0 <= k < j ==> CheckTimeConflict(e[k], e[j]) == Ok(false)
  }

  /** Each appended record is the annotated first record the lookup gives for its own id. */
  ghost predicate AppendedFromLookup(e: seq<Section>, n: nat, lookup: Lookup)
  {
    forall j :: n <= j < |e| ==>
      var got := FetchCoreq(lookup, NormName(e[j]));
      got.Ok? && got.value != [] && e[j] == ParseSectionTimes(got.value[0])
  }

  /** No id is appended twice. */
  ghost predicate AppendedDistinct(e: seq<Section>, n: nat)
  {
    forall j, j' :: n <= j < j' < |e| ==> NormName(e[j]) != NormName(e[j'])
  }

  ghost predicate AppendedIn(e: seq<Section>, n: nat, ids: set<string>)
  {
    forall j :: n <= j < |e| ==> NormName(e[j]) in ids
  }

  /** Some corequisite declared by `member` was appended to `e`. */
  ghost predicate Covers(e: seq<Section>, n: nat, member: Section)
  {
    exists i, j :: 0 <= i < |GetCoreqs(member)| && n <= j < |e| && NormName(e[j]) == NormId(GetCoreqs(member)[i])
  }

  /** Every one of the first `m` members of `base` that declares corequisites is covered. */
  ghost predicate CoversUpTo(e: seq<Section>, base: seq<Section>, m: int)
    requires m <= |base|
  {
    forall i :: 0 <= i < m && GetCoreqs(base[i]) != [] ==> Covers(e, |base|, base[i])
  }

  /** The invariant of every provisional combination built from `base`. */
  ghost predicate Provisional(e: seq<Section>, base: seq<Section>, lookup: Lookup, ids: set<string>)
  {
    && Extends(e, base) && AppendedClear(e, |base|) && AppendedFromLookup(e, |base|, lookup)
    && AppendedDistinct(e, |base|) && AppendedIn(e, |base|, ids)
  }

  /** The stripped names of a base tuple (`coreq_names` before any corequisite is added). */
  function BaseNames(base: seq<Section>): set<string>
  {
    set k | 0 <= k < |base| :: Strip(base[k].name)
  }

  /** The member declares corequisites, and every one of them is already named in the tuple, so
      none can be added: the tuple is rejected. */
  ghost predicate AllCoreqsPresent(base: seq<Section>, i: int)
    requires 0 <= i < |base|
  {
    GetCoreqs(base[i]) != [] && forall c :: c in GetCoreqs(base[i]) ==> NormId(c) in BaseNames(base)
  }

  predicate NoCoreqs(base: seq<Section>)
  {
    forall i :: 0 <= i < |base| ==> GetCoreqs(base[i]) == []
  }

  /** `ledger` keeps every message of `older`. */
  lemma ProvisionalStable(e: seq<Section>, base: seq<Section>, lookup: Lookup, ids: set<string>, ids': set<string>)
    requires Provisional(e, base, lookup, ids) && ids <= ids'
    ensures Provisional(e, base, lookup, ids')
  {
  }

  /** Appending a fitting record of a new id keeps the invariant. */
  lemma ProvisionalAppend(e: seq<Section>, base: seq<Section>, lookup: Lookup, ids: set<string>,
                          id: string, rec: Section)
    requires Provisional(e, base, lookup, ids)
    requires FetchCoreq(lookup, id).Ok? && FetchCoreq(lookup, id).value != []
    requires rec == FetchCoreq(lookup, id).value[0] && id !in ids
    requires FitsWith(e, ParseSectionTimes(rec))
    ensures Provisional(e + [ParseSectionTimes(rec)], base, lookup, ids + {id})
  {
    var ann := ParseSectionTimes(rec);
    var e' := e + [ann];
    var n := |base|;
    assert rec in FetchCoreq(lookup, id).value;
    assert NormName(ann) == id;
    assert e'[..n] == e[..n];
    assert forall j :: 0 <= j < |e| ==> e'[j] == e[j];
    assert AppendedClear(e', n) by {
      forall j, k | n <= j < |e'| && 0 <= k < j ensures CheckTimeConflict(e'[k], e'[j]) == Ok(false) {
        if j == |e| {
          assert CheckTimeConflict(e[k], ann) == Ok(false);
        }
      }
    }
    assert AppendedFromLookup(e', n, lookup) by {
      forall j | n <= j < |e'|
        ensures var got := FetchCoreq(lookup, NormName(e'[j]));
          got.Ok? && got.value != [] && e'[j] == ParseSectionTimes(got.value[0])
      {
        if j < |e| {
          assert e'[j] == e[j];
        }
      }
    }
    assert AppendedDistinct(e', n) by {
      forall j, j' | n <= j < j' < |e'| ensures NormName(e'[j]) != NormName(e'[j']) {
        if j' < |e| {
          assert e'[j] == e[j] && e'[j'] == e[j'];
        } else {
          assert NormName(e[j]) in ids;
        }
      }
    }
  }

  /** Appending keeps what was covered, and covers a member whose corequisite was appended. */
  lemma CoversAppend(e: seq<Section>, base: seq<Section>, ann: Section, m: int)
    requires 0 <= m < |base| && CoversUpTo(e, base, m) && |base| <= |e|
    requires exists c :: c in GetCoreqs(base[m]) && NormId(c) == NormName(ann)
    ensures CoversUpTo(e + [ann], base, m + 1)
  {
    var e' := e + [ann];
    var n := |base|;
    forall i | 0 <= i < m + 1 && GetCoreqs(base[i]) != [] ensures Covers(e', n, base[i]) {
      if i < m {
        CoversKept(e, n, base[i], ann);
      } else {
        CoversLast(e, n, base[m], ann);
      }
    }
  }

  lemma CoversKept(e: seq<Section>, n: nat, member: Section, ann: Section)
    requires Covers(e, n, member)
    ensures Covers(e + [ann], n, member)
  {
    var ci, j :| 0 <= ci < |GetCoreqs(member)| && n <= j < |e| && NormName(e[j]) == NormId(GetCoreqs(member)[ci]);
    assert (e + [ann])[j] == e[j];
  }

  lemma CoversLast(e: seq<Section>, n: nat, member: Section, ann: Section)
    requires n <= |e|
    requires exists c :: c in GetCoreqs(member) && NormId(c) == NormName(ann)
    ensures Covers(e + [ann], n, member)
  {
    var c :| c in GetCoreqs(member) && NormId(c) == NormName(ann);
    var ci :| 0 <= ci < |GetCoreqs(member)| && GetCoreqs(member)[ci] == c;
    assert NormName((e + [ann])[|e|]) == NormId(GetCoreqs(member)[ci]);
  }

  // ---------------------------------------------------------------------------------------
  // add_coreqs_to_combination

  const AddCoreqsStage := "add_coreqs_to_combination"
  const HasTimeConflictStage := "has_time_conflict"

  /** `coreq_cache[coreq]`, fetching and caching the records when the id is not cached yet;
      a failed fetch is not cached. */
  method CachedFetch(lookup: Lookup, cache0: Cache, id: string)
    returns (got: Result<seq<Section>>, cache: Cache, ghost fetched: seq<string>)
    requires CacheFaithful(cache0, lookup)
    ensures got == FetchCoreq(lookup, id)
    ensures CacheFaithful(cache, lookup) && CacheExtends(cache, cache0)
    ensures id in cache0 ==> cache == cache0 && fetched == []
    ensures id !in cache0 ==> fetched == (if got.Ok? then [id] else []) && cache.Keys == cache0.Keys + set x | x in fetched
    ensures FetchLog(fetched, cache, cache0)
  {
    if id in cache0 {
      got, cache, fetched := Ok(cache0[id]), cache0, [];
    } else {
      got, cache, fetched := FetchCoreq(lookup, id), cache0, [];
      if got.Ok? {
        cache := cache[id := got.value];
        fetched := [id];
      }
    }
  }

  lemma AllStable(es: seq<seq<Section>>, base: seq<Section>, lookup: Lookup, ids: set<string>, ids': set<string>)
    requires forall e :: e in es ==> Provisional(e, base, lookup, ids)
    requires ids <= ids'
    ensures forall e :: e in es ==> Provisional(e, base, lookup, ids')
  {
    forall e | e in es ensures Provisional(e, base, lookup, ids') {
      ProvisionalStable(e, base, lookup, ids, ids');
    }
  }

  /** Every combination the frontier loop adds for a new id keeps the invariant and covers
      member `m`. */
  lemma AddedProvisional(base: seq<Section>, m: int, frontier: seq<seq<Section>>, lookup: Lookup,
                         processed: set<string>, id: string)
    requires 0 <= m < |base| && id !in processed
    requires exists c :: c in GetCoreqs(base[m]) && NormId(c) == id
    requires FetchCoreq(lookup, id).Ok? && FetchCoreq(lookup, id).value != []
    requires forall e :: e in frontier ==> Provisional(e, base, lookup, processed) && CoversUpTo(e, base, m)
    ensures forall a :: a in Extension(frontier, FetchCoreq(lookup, id).value[0], 0) ==>
      Provisional(a, base, lookup, processed + {id}) && CoversUpTo(a, base, m + 1)
  {
    var rec := FetchCoreq(lookup, id).value[0];
    var ann := ParseSectionTimes(rec);
    assert rec in FetchCoreq(lookup, id).value;
    assert NormName(ann) == id;
    ExtensionSound(frontier, rec, 0);
    forall a | a in Extension(frontier, rec, 0)
      ensures Provisional(a, base, lookup, processed + {id}) && CoversUpTo(a, base, m + 1)
    {
      var p :| 0 <= p < |frontier| && a == ParseAll(frontier[p]) + [ann]
               && FirstVerdict(ParseAll(frontier[p]), ann) == Ok(false);
      var e := frontier[p];
      assert e in frontier;
      ParseAllOfParsed(e);
      FirstVerdictMeaning(e, ann);
      ProvisionalAppend(e, base, lookup, processed, id, rec);
      CoversAppend(e, base, ann, m);
    }
  }

  // The corequisite stage as a function of the lookup. A cached entry is what the lookup gives
  // (CacheFaithful), so what the loops build does not depend on the cache.

  /** What the loop over one member's corequisites has built so far: the new provisional
      combinations, `coreq_names` and `processed_coreqs`. */
  datatype Progress = Progress(next: seq<seq<Section>>, names: set<string>, processed: set<string>)

  /** One corequisite id of a member, against the frontier the member started from: nothing
      changes when the id is already named or processed, when its fetch fails or finds no
      record, or when its first record fits no provisional combination; otherwise the extended
      combinations are added and the record's name and the id are noted. */
  function IdStep(frontier: seq<seq<Section>>, lookup: Lookup, id: string, p: Progress): Progress
  {
    if id in p.names || id in p.processed then p
    else match FetchCoreq(lookup, id)
      case Err(_) => p
      case Ok(rows) =>
        if rows == [] then p
        else
          var added := Extension(frontier, rows[0], 0);
          if added == [] then p else Progress(p.next + added, p.names + {rows[0].name}, p.processed + {id})
  }

  /** The ids of `coreqs`, one after the other. */
  function ResolveIds(frontier: seq<seq<Section>>, lookup: Lookup, coreqs: seq<string>, p: Progress): Progress
    decreases |coreqs|
  {
    if coreqs == [] then p
    else IdStep(frontier, lookup, NormId(coreqs[|coreqs| - 1]), ResolveIds(frontier, lookup, coreqs[..|coreqs| - 1], p))
  }

  /** Resolving the first `c + 1` ids is resolving the first `c` and then id `c`. */
  lemma ResolveIdsSnoc(frontier: seq<seq<Section>>, lookup: Lookup, coreqs: seq<string>, c: nat, p: Progress)
    requires c < |coreqs|
    ensures ResolveIds(frontier, lookup, coreqs[..c + 1], p)
         == IdStep(frontier, lookup, NormId(coreqs[c]), ResolveIds(frontier, lookup, coreqs[..c], p))
  {
    assert coreqs[..c + 1][..c] == coreqs[..c];
  }

  /** The state of the loop over the members of a tuple: the frontier, `coreq_names` and
      `processed_coreqs`. */
  datatype Stage = Stage(frontier: seq<seq<Section>>, names: set<string>, processed: set<string>)

  /** Member `m`: its corequisites are resolved against the frontier; the tuple is rejected
      (`None`) when it declares some and nothing was built, and otherwise the frontier becomes
      what was built, or stays when nothing was. */
  function MemberStep(base: seq<Section>, m: int, lookup: Lookup, st: Stage): Option<Stage>
    requires 0 <= m < |base|
  {
    var coreqs := GetCoreqs(base[m]);
    var r := ResolveIds(st.frontier, lookup, coreqs, Progress([], st.names, st.processed));
    if coreqs != [] && r.next == [] then None
    else Some(Stage(if r.next != [] then r.next else st.frontier, r.names, r.processed))
  }

  /** `m` steps of a loop that may stop early: `step(i, s)` is the state after step `i` from
      state `s`, or `None` when the loop stops there. */
  function Run<S>(step: (int, S) -> Option<S>, init: S, m: nat): Option<S>
    decreases m
  {
    if m == 0 then Some(init)
    else match Run(step, init, m - 1)
      case None => None
      case Some(s) => step(m - 1, s)
  }

  /** Once stopped, a loop stays stopped. */
  lemma {:induction false} RunStaysStopped<S>(step: (int, S) -> Option<S>, init: S, i: nat, j: nat)
    requires i <= j && Run(step, init, i).None?
    ensures Run(step, init, j).None?
    decreases j - i
  {
    if i < j {
      RunStaysStopped(step, init, i + 1, j);
    }
  }

  /** The step at which a stopped loop stopped. */
  lemma {:induction false} StoppedAt<S>(step: (int, S) -> Option<S>, init: S, j: nat) returns (m: nat)
    requires Run(step, init, j).None?
    ensures m < j && Run(step, init, m).Some? && step(m, Run(step, init, m).value).None?
    decreases j
  {
    if Run(step, init, j - 1).None? {
      m := StoppedAt(step, init, j - 1);
    } else {
      m := j - 1;
    }
  }

  /** A loop that has not stopped after `n` steps took every one of them. */
  lemma NeverStopped<S>(step: (int, S) -> Option<S>, init: S, n: nat)
    requires Run(step, init, n).Some?
    ensures forall m: nat :: m < n && Run(step, init, m).Some? ==> step(m, Run(step, init, m).value).Some?
  {
    forall m: nat | m < n && Run(step, init, m).Some?
      ensures step(m, Run(step, init, m).value).Some?
    {
      RunEarlier(step, init, m + 1, n);
    }
  }

  /** A loop that has not stopped after `j` steps had not stopped after fewer. */
  lemma {:induction false} RunEarlier<S>(step: (int, S) -> Option<S>, init: S, i: nat, j: nat)
    requires i <= j && Run(step, init, j).Some?
    ensures Run(step, init, i).Some?
    decreases j - i
  {
    if i < j {
      RunEarlier(step, init, i, j - 1);
    }
  }

  /** The members of `base`, one step each. */
  function MemberSteps(base: seq<Section>, lookup: Lookup): (int, Stage) -> Option<Stage>
  {
    (i: int, st: Stage) => if 0 <= i < |base| then MemberStep(base, i, lookup, st) else None
  }

  /** The state after the first `m` members, starting from the tuple alone with its own names. */
  function Advance(base: seq<Section>, lookup: Lookup, m: nat): Option<Stage>
  {
    Run(MemberSteps(base, lookup), Stage([base], BaseNames(base), {}), m)
  }

  /** What `add_coreqs_to_combination` returns for `base`: the final frontier, or nothing when a
      member rejected the tuple. */
  function CoreqResult(base: seq<Section>, lookup: Lookup): seq<seq<Section>>
  {
    match Advance(base, lookup, |base|)
    case None => []
    case Some(st) => st.frontier
  }

  /** The frontier is never empty while the tuple is not rejected. */
  lemma {:induction false} AdvanceNonEmpty(base: seq<Section>, lookup: Lookup, m: nat)
    requires Advance(base, lookup, m).Some?
    ensures Advance(base, lookup, m).value.frontier != []
    decreases m
  {
    if m > 0 {
      AdvanceNonEmpty(base, lookup, m - 1);
    }
  }

  /** Both directions of the rejection rule: the result is empty exactly when some member,
      reached with the tuple not yet rejected, declares corequisites and builds nothing. */
  lemma {:induction false} CoreqResultEmpty(base: seq<Section>, lookup: Lookup)
    ensures CoreqResult(base, lookup) == [] <==>
      exists m :: 0 <= m < |base| && Advance(base, lookup, m).Some?
                  && MemberStep(base, m, lookup, Advance(base, lookup, m).value).None?
  {
    var step, init := MemberSteps(base, lookup), Stage([base], BaseNames(base), {});
    if Advance(base, lookup, |base|).Some? {
      AdvanceNonEmpty(base, lookup, |base|);
      NeverStopped(step, init, |base|);
    } else {
      var m := StoppedAt(step, init, |base|);
      assert step(m, Run(step, init, m).value) == MemberStep(base, m, lookup, Advance(base, lookup, m).value);
    }
  }

  // What the corequisite stage records in `errors`, as a function of the lookup.

  /** An exception from the incremental check while extending by a corequisite of section
      `name`: recorded under `has_time_conflict` by its decorator (with a trailing space), then
      under `add_coreqs_to_combination` with the section's name. */
  function CheckFailureLedger(ledger: Ledger, failure: Option<string>, name: string): Ledger
  {
    match failure
    case None => ledger
    case Some(msg) =>
      Record(Record(ledger, HasTimeConflictStage, msg + " "), AddCoreqsStage, msg + " in section " + name)
  }

  /** The records one corequisite id of member `m` leaves: none when it is skipped; a failing
      fetch under `add_coreqs_to_combination`; otherwise the exception, if any, that ended the
      loop over the frontier. */
  function IdLedger(base: seq<Section>, m: int, frontier: seq<seq<Section>>, lookup: Lookup, id: string,
                    p: Progress, ledger: Ledger): Ledger
    requires 0 <= m < |base|
  {
    if id in p.names || id in p.processed then ledger
    else match FetchCoreq(lookup, id)
      case Err(msg) => Record(ledger, AddCoreqsStage, msg + " in section " + base[m].name)
      case Ok(rows) =>
        if rows == [] then ledger
        else CheckFailureLedger(ledger, ExtensionFailure(frontier, rows[0], 0), base[m].name)
  }

  /** The records of the ids of `coreqs`, one after the other, each against the progress the
      ids before it made. */
  function ResolveLedger(base: seq<Section>, m: int, frontier: seq<seq<Section>>, lookup: Lookup,
                         coreqs: seq<string>, p: Progress, ledger: Ledger): Ledger
    requires 0 <= m < |base|
    decreases |coreqs|
  {
    if coreqs == [] then ledger
    else
      var init := coreqs[..|coreqs| - 1];
      IdLedger(base, m, frontier, lookup, NormId(coreqs[|coreqs| - 1]), ResolveIds(frontier, lookup, init, p),
               ResolveLedger(base, m, frontier, lookup, init, p, ledger))
  }

  /** The records of the first `c + 1` ids are those of the first `c` followed by id `c`'s. */
  lemma ResolveLedgerSnoc(base: seq<Section>, m: int, frontier: seq<seq<Section>>, lookup: Lookup,
                          coreqs: seq<string>, c: nat, p: Progress, ledger: Ledger)
    requires 0 <= m < |base| && c < |coreqs|
    ensures ResolveLedger(base, m, frontier, lookup, coreqs[..c + 1], p, ledger)
         == IdLedger(base, m, frontier, lookup, NormId(coreqs[c]), ResolveIds(frontier, lookup, coreqs[..c], p),
                     ResolveLedger(base, m, frontier, lookup, coreqs[..c], p, ledger))
  {
    assert coreqs[..c + 1][..c] == coreqs[..c];
  }

  /** The records member `m` leaves, reached in state `st`. */
  function MemberLedger(base: seq<Section>, m: int, lookup: Lookup, st: Stage, ledger: Ledger): Ledger
    requires 0 <= m < |base|
  {
    ResolveLedger(base, m, st.frontier, lookup, GetCoreqs(base[m]), Progress([], st.names, st.processed), ledger)
  }

  /** What a loop that may stop early logs in its first `n` steps: `log(i, s, l)` is the log
      after step `i` taken from state `s` with log `l`; a step that stops the loop still logs,
      and nothing is logged after it. */
  function RunLog<S, L>(step: (int, S) -> Option<S>, log: (int, S, L) -> L, init: S, l0: L, n: nat): L
    decreases n
  {
    if n == 0 then l0
    else
      var before := RunLog(step, log, init, l0, n - 1);
      match Run(step, init, n - 1)
      case None => before
      case Some(s) => log(n - 1, s, before)
  }

  /** After the loop stopped nothing more is logged. */
  lemma {:induction false} RunLogStopped<S, L>(step: (int, S) -> Option<S>, log: (int, S, L) -> L, init: S, l0: L,
                                               i: nat, j: nat)
    requires i <= j && Run(step, init, i).None?
    ensures RunLog(step, log, init, l0, j) == RunLog(step, log, init, l0, i)
    decreases j - i
  {
    if i < j {
      RunStaysStopped(step, init, i, j - 1);
      RunLogStopped(step, log, init, l0, i, j - 1);
    }
  }

  /** The members' records, one member at a time. */
  function MemberLogs(base: seq<Section>, lookup: Lookup): (int, Stage, Ledger) -> Ledger
  {
    (i: int, st: Stage, l: Ledger) => if 0 <= i < |base| then MemberLedger(base, i, lookup, st, l) else l
  }

  /** The records of the first `n` members; the members after a rejection are not visited. */
  function CoreqLedger(base: seq<Section>, lookup: Lookup, n: nat, ledger: Ledger): Ledger
  {
    RunLog(MemberSteps(base, lookup), MemberLogs(base, lookup), Stage([base], BaseNames(base), {}), ledger, n)
  }

  /** A member reached without a rejection adds its own records. */
  lemma CoreqLedgerNext(base: seq<Section>, lookup: Lookup, n: nat, ledger: Ledger)
    requires n < |base| && Advance(base, lookup, n).Some?
    ensures CoreqLedger(base, lookup, n + 1, ledger)
         == MemberLedger(base, n, lookup, Advance(base, lookup, n).value, CoreqLedger(base, lookup, n, ledger))
  {
  }

  /** One step of the member loop against the reference: a rejection fixes the result (empty)
      and the final records; otherwise the loop moves on to the next state and its records. */
  lemma MemberVisited(base: seq<Section>, lookup: Lookup, m: nat, st: Stage, st': Stage, rejected: bool,
                      ledger0: Ledger, ledger: Ledger)
    requires m < |base| && Advance(base, lookup, m) == Some(st)
    requires MemberStep(base, m, lookup, st) == if rejected then None else Some(st')
    requires ledger == MemberLedger(base, m, lookup, st, CoreqLedger(base, lookup, m, ledger0))
    ensures rejected ==> CoreqResult(base, lookup) == [] && ledger == CoreqLedger(base, lookup, |base|, ledger0)
    ensures !rejected ==> Advance(base, lookup, m + 1) == Some(st') && ledger == CoreqLedger(base, lookup, m + 1, ledger0)
  {
    CoreqLedgerNext(base, lookup, m, ledger0);
    AdvanceNext(base, lookup, m, st);
    if rejected {
      var step, init := MemberSteps(base, lookup), Stage([base], BaseNames(base), {});
      RunStaysStopped(step, init, m + 1, |base|);
      RunLogStopped(step, MemberLogs(base, lookup), init, ledger0, m + 1, |base|);
    }
  }

  /** A member reached in state `st` moves the loop on by its own step. */
  lemma AdvanceNext(base: seq<Section>, lookup: Lookup, m: nat, st: Stage)
    requires m < |base| && Advance(base, lookup, m) == Some(st)
    ensures Advance(base, lookup, m + 1) == MemberStep(base, m, lookup, st)
  {
  }

  /** The records of one corequisite id only add to the ledger. */
  lemma IdLedgerGrows(base: seq<Section>, m: int, frontier: seq<seq<Section>>, lookup: Lookup, id: string,
                      p: Progress, ledger: Ledger)
    requires 0 <= m < |base|
    ensures LedgerGrows(IdLedger(base, m, frontier, lookup, id, p, ledger), ledger)
  {
  }

  /** The records of the first `c` ids are kept by the records of all of them. */
  lemma {:induction false} ResolveLedgerPrefix(base: seq<Section>, m: int, frontier: seq<seq<Section>>,
                                               lookup: Lookup, coreqs: seq<string>, p: Progress,
                                               ledger: Ledger, c: nat)
    requires 0 <= m < |base| && c <= |coreqs|
    ensures LedgerGrows(ResolveLedger(base, m, frontier, lookup, coreqs, p, ledger),
                        ResolveLedger(base, m, frontier, lookup, coreqs[..c], p, ledger))
    decreases |coreqs|
  {
    if c < |coreqs| {
      var init := coreqs[..|coreqs| - 1];
      assert init[..c] == coreqs[..c];
      ResolveLedgerPrefix(base, m, frontier, lookup, init, p, ledger, c);
      IdLedgerGrows(base, m, frontier, lookup, NormId(coreqs[|coreqs| - 1]), ResolveIds(frontier, lookup, init, p),
                    ResolveLedger(base, m, frontier, lookup, init, p, ledger));
      LedgerGrowsTrans(ResolveLedger(base, m, frontier, lookup, coreqs, p, ledger),
                       ResolveLedger(base, m, frontier, lookup, init, p, ledger),
                       ResolveLedger(base, m, frontier, lookup, coreqs[..c], p, ledger));
    } else {
      assert coreqs[..c] == coreqs;
    }
  }

  /** A corequisite id that is reached unnamed and unprocessed and whose fetch fails leaves its
      message, with the section's name, under `add_coreqs_to_combination`, and the ids after it
      do not remove it: the failure is recorded and skipped. */
  lemma FailedFetchRecorded(base: seq<Section>, m: int, frontier: seq<seq<Section>>, lookup: Lookup,
                            coreqs: seq<string>, p: Progress, ledger: Ledger, c: int)
    requires 0 <= m < |base| && 0 <= c < |coreqs|
    requires var q := ResolveIds(frontier, lookup, coreqs[..c], p);
      NormId(coreqs[c]) !in q.names && NormId(coreqs[c]) !in q.processed
    requires FetchCoreq(lookup, NormId(coreqs[c])).Err?
    ensures var l := ResolveLedger(base, m, frontier, lookup, coreqs, p, ledger);
      AddCoreqsStage in l && FetchCoreq(lookup, NormId(coreqs[c])).msg + " in section " + base[m].name in l[AddCoreqsStage]
  {
    assert coreqs[..c + 1][..c] == coreqs[..c];
    ResolveLedgerPrefix(base, m, frontier, lookup, coreqs, p, ledger, c + 1);
  }

  /** Extend the frontier by the first record of a fetched id and update the sets of names and
      processed ids when anything was added; an exception from the incremental check is recorded
      under both stages. */
  method ApplyRecord(base: seq<Section>, m: int, frontier: seq<seq<Section>>, lookup: Lookup,
                     id: string, next0: seq<seq<Section>>, names0: set<string>, processed0: set<string>,
                     ledger0: Ledger)
    returns (next: seq<seq<Section>>, names: set<string>, processed: set<string>, ledger: Ledger)
    requires 0 <= m < |base| && id !in processed0
    requires exists c :: c in GetCoreqs(base[m]) && NormId(c) == id
    requires FetchCoreq(lookup, id).Ok? && FetchCoreq(lookup, id).value != []
    requires forall e :: e in frontier ==> Provisional(e, base, lookup, processed0) && CoversUpTo(e, base, m)
    requires forall e :: e in next0 ==> Provisional(e, base, lookup, processed0) && CoversUpTo(e, base, m + 1)
    ensures forall e :: e in frontier ==> Provisional(e, base, lookup, processed) && CoversUpTo(e, base, m)
    ensures forall e :: e in next ==> Provisional(e, base, lookup, processed) && CoversUpTo(e, base, m + 1)
    ensures names0 <= names && processed0 <= processed
    ensures |next| == |next0| ==> names == names0 && processed == processed0
    ensures var rec := FetchCoreq(lookup, id).value[0];
      var added := Extension(frontier, rec, 0);
      && next == next0 + added
      && names == (if added == [] then names0 else names0 + {rec.name})
      && processed == (if added == [] then processed0 else processed0 + {id})
    ensures ledger == CheckFailureLedger(ledger0, ExtensionFailure(frontier, FetchCoreq(lookup, id).value[0], 0), base[m].name)
    ensures LedgerGrows(ledger, ledger0)
  {
    var rec := FetchCoreq(lookup, id).value[0];
    forall f | 0 <= f < |frontier| ensures AllParsed(frontier[f]) {
      assert frontier[f] in frontier;
    }
    var added, failure, _ := ExtendFrontier(frontier, rec);
    AddedProvisional(base, m, frontier, lookup, processed0, id);
    names, processed, ledger := names0, processed0, ledger0;
    if added != [] {
      AllStable(frontier, base, lookup, processed0, processed0 + {id});
      AllStable(next0, base, lookup, processed0, processed0 + {id});
      names := names + {rec.name};
      processed := processed + {id};
    }
    next := next0 + added;
    ledger := RecordCheckFailure(ledger0, failure, base[m].name);
  }

  /** The handler for an exception from the incremental check: the decorator's record under
      `has_time_conflict`, then the handler's under `add_coreqs_to_combination`. */
  method RecordCheckFailure(ledger0: Ledger, failure: Option<string>, name: string) returns (ledger: Ledger)
    ensures ledger == CheckFailureLedger(ledger0, failure, name)
    ensures failure.Some? ==> && AddCoreqsStage in ledger && failure.value + " in section " + name in ledger[AddCoreqsStage]
                              && HasTimeConflictStage in ledger && failure.value + " " in ledger[HasTimeConflictStage]
    ensures LedgerGrows(ledger, ledger0)
  {
    ledger := ledger0;
    if failure.Some? {
      ledger := Record(ledger, HasTimeConflictStage, failure.value + " ");
      ledger := Record(ledger, AddCoreqsStage, failure.value + " in section " + name);
    }
  }

  /** The loop over the corequisites of member `m` of `base`: each id not yet named nor
      processed is fetched (through the cache) and, when records exist, its first record extends
      every provisional combination it fits. Failures are recorded and skipped. */
  method ResolveMember(base: seq<Section>, m: int, frontier: seq<seq<Section>>, lookup: Lookup,
                       names0: set<string>, processed0: set<string>, cache0: Cache, ledger0: Ledger)
    returns (next: seq<seq<Section>>, names: set<string>, processed: set<string>, cache: Cache,
             ledger: Ledger, ghost fetched: seq<string>)
    requires 0 <= m < |base|
    requires forall e :: e in frontier ==> Provisional(e, base, lookup, processed0) && CoversUpTo(e, base, m)
    requires CacheFaithful(cache0, lookup)
    ensures forall e :: e in frontier ==> Provisional(e, base, lookup, processed) && CoversUpTo(e, base, m)
    ensures forall e :: e in next ==> Provisional(e, base, lookup, processed) && CoversUpTo(e, base, m + 1)
    ensures names0 <= names && processed0 <= processed
    ensures BaseNames(base) <= names0 && AllCoreqsPresent(base, m) ==> next == []
    ensures GetCoreqs(base[m]) == [] ==> next == [] && names == names0 && processed == processed0
    ensures Progress(next, names, processed) ==
      ResolveIds(frontier, lookup, GetCoreqs(base[m]), Progress([], names0, processed0))
    ensures ledger == MemberLedger(base, m, lookup, Stage(frontier, names0, processed0), ledger0)
    ensures CacheFaithful(cache, lookup) && CacheExtends(cache, cache0)
    ensures LedgerGrows(ledger, ledger0)
    ensures FetchLog(fetched, cache, cache0)
  {
    var coreqs := GetCoreqs(base[m]);
    next, names, processed, cache, ledger, fetched := [], names0, processed0, cache0, ledger0, [];
    for c := 0 to |coreqs|
      invariant IdsResolved(base, m, frontier, lookup, Stage(frontier, names0, processed0), cache0, ledger0, c,
                            Progress(next, names, processed), cache, ledger, fetched)
    {
      next, names, processed, cache, ledger, fetched :=
        ResolveNext(base, m, frontier, lookup, names0, processed0, cache0, ledger0, c,
                    next, names, processed, cache, ledger, fetched);
    }
    assert coreqs[..|coreqs|] == coreqs;
  }

  /** The loop over the corequisites of member `m`, reached in state `st`, has handled the
      first `c` of them and is at progress `p`, with the records `ledger` and the cache `cache`
      (which gained the ids `fetched`). */
  ghost predicate IdsResolved(base: seq<Section>, m: int, frontier: seq<seq<Section>>, lookup: Lookup, st: Stage,
                              cache0: Cache, ledger0: Ledger, c: int, p: Progress, cache: Cache, ledger: Ledger,
                              fetched: seq<string>)
  {
    var coreqs := if 0 <= m < |base| then GetCoreqs(base[m]) else [];
    && 0 <= m < |base| && 0 <= c <= |coreqs| && st.frontier == frontier
    && (forall e :: e in frontier ==> Provisional(e, base, lookup, p.processed) && CoversUpTo(e, base, m))
    && (forall e :: e in p.next ==> Provisional(e, base, lookup, p.processed) && CoversUpTo(e, base, m + 1))
    && st.names <= p.names && st.processed <= p.processed
    && (BaseNames(base) <= st.names && (forall c' :: 0 <= c' < c ==> NormId(coreqs[c']) in BaseNames(base))
        ==> p.next == [])
    && (coreqs == [] ==> p == Progress([], st.names, st.processed))
    && p == ResolveIds(frontier, lookup, coreqs[..c], Progress([], st.names, st.processed))
    && ledger == ResolveLedger(base, m, frontier, lookup, coreqs[..c], Progress([], st.names, st.processed), ledger0)
    && CacheFaithful(cache, lookup) && CacheExtends(cache, cache0)
    && LedgerGrows(ledger, ledger0)
    && FetchLog(fetched, cache, cache0)
  }

  /** One pass of that loop: corequisite `c` of member `m`. */
  method ResolveNext(base: seq<Section>, m: int, frontier: seq<seq<Section>>, lookup: Lookup,
                     names0: set<string>, processed0: set<string>, ghost cache0: Cache, ghost ledger0: Ledger, c: int,
                     next0: seq<seq<Section>>, names1: set<string>, processed1: set<string>, cache1: Cache,
                     ledger1: Ledger, ghost fetched1: seq<string>)
    returns (next: seq<seq<Section>>, names: set<string>, processed: set<string>, cache: Cache,
             ledger: Ledger, ghost fetched: seq<string>)
    requires 0 <= m < |base| && c < |GetCoreqs(base[m])|
    requires IdsResolved(base, m, frontier, lookup, Stage(frontier, names0, processed0), cache0, ledger0, c,
                         Progress(next0, names1, processed1), cache1, ledger1, fetched1)
    ensures IdsResolved(base, m, frontier, lookup, Stage(frontier, names0, processed0), cache0, ledger0, c + 1,
                        Progress(next, names, processed), cache, ledger, fetched)
  {
    var coreqs := GetCoreqs(base[m]);
    assert coreqs[c] in GetCoreqs(base[m]);
    ResolveIdsSnoc(frontier, lookup, coreqs, c, Progress([], names0, processed0));
    ResolveLedgerSnoc(base, m, frontier, lookup, coreqs, c, Progress([], names0, processed0), ledger0);
    ghost var fetchedHere;
    next, names, processed, cache, ledger, fetchedHere :=
      ResolveId(base, m, frontier, lookup, NormId(coreqs[c]), next0, names1, processed1, cache1, ledger1);
    FetchLogAppend(fetched1, fetchedHere, cache0, cache1, cache);
    LedgerGrowsTrans(ledger, ledger1, ledger0);
    fetched := fetched1 + fetchedHere;
  }

  /** One corequisite id of member `m`: skipped when already named or processed; otherwise
      fetched through the cache, a failure recorded, and the first record applied. */
  method ResolveId(base: seq<Section>, m: int, frontier: seq<seq<Section>>, lookup: Lookup, id: string,
                   next0: seq<seq<Section>>, names0: set<string>, processed0: set<string>, cache0: Cache,
                   ledger0: Ledger)
    returns (next: seq<seq<Section>>, names: set<string>, processed: set<string>, cache: Cache,
             ledger: Ledger, ghost fetched: seq<string>)
    requires 0 <= m < |base|
    requires exists c :: c in GetCoreqs(base[m]) && NormId(c) == id
    requires forall e :: e in frontier ==> Provisional(e, base, lookup, processed0) && CoversUpTo(e, base, m)
    requires forall e :: e in next0 ==> Provisional(e, base, lookup, processed0) && CoversUpTo(e, base, m + 1)
    requires CacheFaithful(cache0, lookup)
    ensures forall e :: e in frontier ==> Provisional(e, base, lookup, processed) && CoversUpTo(e, base, m)
    ensures forall e :: e in next ==> Provisional(e, base, lookup, processed) && CoversUpTo(e, base, m + 1)
    ensures names0 <= names && processed0 <= processed
    ensures id in names0 ==> next == next0 && names == names0 && processed == processed0
    ensures Progress(next, names, processed) == IdStep(frontier, lookup, id, Progress(next0, names0, processed0))
    ensures ledger == IdLedger(base, m, frontier, lookup, id, Progress(next0, names0, processed0), ledger0)
    ensures CacheFaithful(cache, lookup) && CacheExtends(cache, cache0)
    ensures LedgerGrows(ledger, ledger0)
    ensures FetchLog(fetched, cache, cache0)
  {
    next, names, processed, cache, ledger, fetched := next0, names0, processed0, cache0, ledger0, [];
    if id !in names && id !in processed {
      var got;
      got, cache, fetched := CachedFetch(lookup, cache0, id);
      if got.Err? {
        ledger := Record(ledger0, AddCoreqsStage, got.msg + " in section " + base[m].name);
      } else if got.value != [] {
        next, names, processed, ledger := ApplyRecord(base, m, frontier, lookup, id, next0, names0, processed0, ledger0);
      }
    }
  }

  /** A member without corequisites adds nothing to cover. */
  lemma CoversSkip(e: seq<Section>, base: seq<Section>, m: int)
    requires 0 <= m < |base| && CoversUpTo(e, base, m) && GetCoreqs(base[m]) == []
    ensures CoversUpTo(e, base, m + 1)
  {
  }

  lemma NoCoreqsPrefix(base: seq<Section>, m: int)
    requires 0 <= m < |base|
    ensures NoCoreqs(base[..m + 1]) <==> NoCoreqs(base[..m]) && GetCoreqs(base[m]) == []
  {
    assert base[..m + 1] == base[..m] + [base[m]];
  }

  /** One member of `add_coreqs_to_combination`'s outer loop, once its corequisites are
      resolved: when the member was not rejected, the new frontier (the combinations built for
      it, or the old frontier when it declares none) keeps the loop's invariant one step on. */
  lemma FrontierAdvances(base: seq<Section>, m: int, frontier: seq<seq<Section>>, next: seq<seq<Section>>,
                         lookup: Lookup, names0: set<string>, processed: set<string>)
    requires 0 <= m < |base| && frontier != []
    requires forall e :: e in frontier ==> Provisional(e, base, lookup, processed) && CoversUpTo(e, base, m)
    requires forall e :: e in next ==> Provisional(e, base, lookup, processed) && CoversUpTo(e, base, m + 1)
    requires forall i :: 0 <= i < m ==> !AllCoreqsPresent(base, i)
    requires NoCoreqs(base[..m]) ==> frontier == [base]
    requires BaseNames(base) <= names0
    requires BaseNames(base) <= names0 && AllCoreqsPresent(base, m) ==> next == []
    requires GetCoreqs(base[m]) == [] ==> next == []
    requires next != [] || GetCoreqs(base[m]) == []
    ensures var nf := if next != [] then next else frontier;
      && nf != []
      && (forall e :: e in nf ==> Provisional(e, base, lookup, processed) && CoversUpTo(e, base, m + 1))
      && (forall i :: 0 <= i < m + 1 ==> !AllCoreqsPresent(base, i))
      && (NoCoreqs(base[..m + 1]) ==> nf == [base])
  {
    NoCoreqsPrefix(base, m);
    if next == [] {
      forall e | e in frontier ensures CoversUpTo(e, base, m + 1) {
        CoversSkip(e, base, m);
      }
    }
  }

  /** The tuple itself is the first provisional combination. */
  lemma BaseProvisional(base: seq<Section>, lookup: Lookup)
    requires AllParsed(base)
    ensures Provisional(base, base, lookup, {}) && CoversUpTo(base, base, 0)
  {
    assert base[..|base|] == base;
  }

  /** A combination `add_coreqs_to_combination` returns for `base`: the tuple followed by
      corequisite records that passed the incremental check, each the first record of its own
      id, no id twice, and every member that declares corequisites covered by one of them. */
  ghost predicate Completed(e: seq<Section>, base: seq<Section>, lookup: Lookup)
  {
    && Extends(e, base) && AppendedClear(e, |base|) && AppendedFromLookup(e, |base|, lookup)
    && AppendedDistinct(e, |base|) && CoversUpTo(e, base, |base|)
  }

  lemma ProvisionalCompleted(e: seq<Section>, base: seq<Section>, lookup: Lookup, ids: set<string>)
    requires Provisional(e, base, lookup, ids) && CoversUpTo(e, base, |base|)
    ensures Completed(e, base, lookup)
  {
  }

  lemma FrontierCompleted(frontier: seq<seq<Section>>, base: seq<Section>, lookup: Lookup, ids: set<string>)
    requires forall e :: e in frontier ==> Provisional(e, base, lookup, ids) && CoversUpTo(e, base, |base|)
    ensures forall e :: e in frontier ==> Completed(e, base, lookup)
  {
    forall e | e in frontier ensures Completed(e, base, lookup) {
      ProvisionalCompleted(e, base, lookup, ids);
    }
  }

  /** One pass of `add_coreqs_to_combination`'s outer loop: resolve member `m`'s corequisites;
      the tuple is rejected when the member declares some but no combination was built for it,
      and otherwise the frontier moves on (unchanged for a member that declares none). */
  method AdvanceMember(base: seq<Section>, m: int, frontier: seq<seq<Section>>, lookup: Lookup,
                       names0: set<string>, processed0: set<string>, cache0: Cache, ledger0: Ledger)
    returns (rejected: bool, next: seq<seq<Section>>, names: set<string>, processed: set<string>,
             cache: Cache, ledger: Ledger, ghost fetched: seq<string>)
    requires 0 <= m < |base| && frontier != []
    requires forall e :: e in frontier ==> Provisional(e, base, lookup, processed0) && CoversUpTo(e, base, m)
    requires forall i :: 0 <= i < m ==> !AllCoreqsPresent(base, i)
    requires NoCoreqs(base[..m]) ==> frontier == [base]
    requires BaseNames(base) <= names0
    requires CacheFaithful(cache0, lookup)
    ensures rejected ==> GetCoreqs(base[m]) != []
    ensures MemberStep(base, m, lookup, Stage(frontier, names0, processed0)) ==
      if rejected then None else Some(Stage(next, names, processed))
    ensures ledger == MemberLedger(base, m, lookup, Stage(frontier, names0, processed0), ledger0)
    ensures !rejected ==>
      && next != []
      && (forall e :: e in next ==> Provisional(e, base, lookup, processed) && CoversUpTo(e, base, m + 1))
      && (forall i :: 0 <= i < m + 1 ==> !AllCoreqsPresent(base, i))
      && (NoCoreqs(base[..m + 1]) ==> next == [base])
      && BaseNames(base) <= names
    ensures CacheFaithful(cache, lookup) && CacheExtends(cache, cache0)
    ensures LedgerGrows(ledger, ledger0)
    ensures FetchLog(fetched, cache, cache0)
  {
    var built;
    built, names, processed, cache, ledger, fetched :=
      ResolveMember(base, m, frontier, lookup, names0, processed0, cache0, ledger0);
    rejected := built == [] && GetCoreqs(base[m]) != [];
    if !rejected {
      FrontierAdvances(base, m, frontier, built, lookup, names0, processed);
    }
    next := if built != [] then built else frontier;
  }

  /** `add_coreqs_to_combination` on a base tuple that the full check has annotated: members are
      visited in order; a member that declares corequisites but extends no provisional
      combination rejects the tuple (the result is empty); otherwise the frontier becomes the
      combinations built for that member. The cache of fetched ids is shared by the caller. */
  method AddCoreqs(combination: seq<Section>, lookup: Lookup, cache0: Cache, ledger0: Ledger)
    returns (extended: seq<seq<Section>>, cache: Cache, ledger: Ledger, ghost fetched: seq<string>)
    requires AllParsed(combination)
    requires CacheFaithful(cache0, lookup)
    ensures forall e :: e in extended ==> Completed(e, combination, lookup)
    ensures extended != [] ==> forall i :: 0 <= i < |combination| ==> !AllCoreqsPresent(combination, i)
    ensures NoCoreqs(combination) ==> extended == [combination]
    ensures extended == CoreqResult(combination, lookup)
    ensures ledger == CoreqLedger(combination, lookup, |combination|, ledger0)
    ensures CacheFaithful(cache, lookup) && CacheExtends(cache, cache0)
    ensures LedgerGrows(ledger, ledger0)
    ensures FetchLog(fetched, cache, cache0)
  {
    var names := BaseNames(combination);
    var processed: set<string> := {};
    var frontier := [combination];
    cache, ledger, fetched := cache0, ledger0, [];
    BaseProvisional(combination, lookup);
    for m := 0 to |combination|
      invariant MembersVisited(combination, lookup, m, frontier, names, processed)
      invariant ledger == CoreqLedger(combination, lookup, m, ledger0)
      invariant CacheFaithful(cache, lookup) && CacheExtends(cache, cache0)
      invariant LedgerGrows(ledger, ledger0)
      invariant FetchLog(fetched, cache, cache0)
    {
      var rejected, frontier', names', processed', cache', ledger', fetchedHere :=
        VisitMember(combination, lookup, m, frontier, names, processed, cache, ledger, ledger0);
      FetchLogAppend(fetched, fetchedHere, cache0, cache, cache');
      LedgerGrowsTrans(ledger', ledger, ledger0);
      fetched := fetched + fetchedHere;
      cache, ledger := cache', ledger';
      if rejected {
        extended := [];
        return;
      }
      frontier, names, processed := frontier', names', processed';
    }
    assert combination[..|combination|] == combination;
    FrontierCompleted(frontier, combination, lookup, processed);
    extended := frontier;
  }

  /** The state of the member loop after the first `m` members: a non-empty frontier of
      provisional combinations covering those members, none of which had all its corequisites
      named, the bare tuple while none declared any, and the reference state. */
  ghost predicate MembersVisited(base: seq<Section>, lookup: Lookup, m: nat, frontier: seq<seq<Section>>,
                                 names: set<string>, processed: set<string>)
    requires m <= |base|
  {
    && frontier != []
    && (forall e :: e in frontier ==> Provisional(e, base, lookup, processed) && CoversUpTo(e, base, m))
    && (forall i :: 0 <= i < m ==> !AllCoreqsPresent(base, i))
    && (NoCoreqs(base[..m]) ==> frontier == [base])
    && BaseNames(base) <= names
    && Advance(base, lookup, m) == Some(Stage(frontier, names, processed))
  }

  /** One pass of the member loop, against the reference: a rejection fixes the (empty) result
      and the final records; otherwise the loop state and its records move on by one member. */
  method VisitMember(base: seq<Section>, lookup: Lookup, m: nat, frontier: seq<seq<Section>>,
                     names0: set<string>, processed0: set<string>, cache0: Cache, ledger0: Ledger, ghost start: Ledger)
    returns (rejected: bool, next: seq<seq<Section>>, names: set<string>, processed: set<string>,
             cache: Cache, ledger: Ledger, ghost fetched: seq<string>)
    requires m < |base| && MembersVisited(base, lookup, m, frontier, names0, processed0)
    requires ledger0 == CoreqLedger(base, lookup, m, start)
    requires CacheFaithful(cache0, lookup)
    ensures rejected ==> GetCoreqs(base[m]) != []
    ensures rejected ==> CoreqResult(base, lookup) == [] && ledger == CoreqLedger(base, lookup, |base|, start)
    ensures !rejected ==>
      MembersVisited(base, lookup, m + 1, next, names, processed) && ledger == CoreqLedger(base, lookup, m + 1, start)
    ensures CacheFaithful(cache, lookup) && CacheExtends(cache, cache0)
    ensures LedgerGrows(ledger, ledger0)
    ensures FetchLog(fetched, cache, cache0)
  {
    rejected, next, names, processed, cache, ledger, fetched :=
      AdvanceMember(base, m, frontier, lookup, names0, processed0, cache0, ledger0);
    MemberVisited(base, lookup, m, Stage(frontier, names0, processed0), Stage(next, names, processed),
                  rejected, start, ledger);
  }

  // ---------------------------------------------------------------------------------------
  // generate_combinations_with_coreqs

  const GenerateStage := "generate_combinations_with_coreqs"

  function Names(comb: seq<Section>): seq<string>
  {
    seq(|comb|, i requires 0 <= i < |comb| => comb[i].name)
  }

  /** The text standing for a tuple in the generator's error message. */
  function Describe(comb: seq<Section>): string
  {
    "(" + Join(Names(comb), ", ") + ")"
  }

  /** The reference for one base tuple: nothing when the full scan of its sorted, annotated copy
      finds a conflict or raises, and otherwise what the corequisite pass returns for that copy. */
  ghost function BaseResult(base: seq<Section>, lookup: Lookup): seq<seq<Section>>
  {
    var sorted := SortBy(ParseAll(base), DateKey);
    if ScanClear(sorted) then CoreqResult(sorted, lookup) else []
  }

  /** The reference for the generator: the results of the base tuples, concatenated in order. */
  ghost function Generated(bases: seq<seq<Section>>, lookup: Lookup): seq<seq<Section>>
    decreases |bases|
  {
    if bases == [] then [] else BaseResult(bases[0], lookup) + Generated(bases[1..], lookup)
  }

  /** The records one base tuple leaves: an exception from the full scan of its sorted,
      annotated copy under `has_time_conflict` (by its decorator) and under the generator's name
      with the tuple; nothing for a conflict; the corequisite stage's records otherwise. */
  ghost function BaseLedger(base: seq<Section>, lookup: Lookup, ledger: Ledger): Ledger
  {
    var sorted := SortBy(ParseAll(base), DateKey);
    DateSortFacts(base);
    VerdictLedger(base, sorted, lookup, ScanFrom(sorted, 0, 1), ledger)
  }

  /** The records of a base tuple whose sorted copy is `sorted`, given the scan's verdict. */
  function VerdictLedger(base: seq<Section>, sorted: seq<Section>, lookup: Lookup, verdict: Result<bool>,
                         ledger: Ledger): Ledger
  {
    match verdict
    case Err(msg) =>
      Record(Record(ledger, HasTimeConflictStage, msg + " "), GenerateStage, msg + " in combination " + Describe(base))
    case Ok(clash) => if clash then ledger else CoreqLedger(sorted, lookup, |sorted|, ledger)
  }

  /** The records of the base tuples, one after the other. */
  ghost function GeneratedLedger(bases: seq<seq<Section>>, lookup: Lookup, ledger: Ledger): Ledger
    decreases |bases|
  {
    if bases == [] then ledger
    else BaseLedger(bases[|bases| - 1], lookup, GeneratedLedger(bases[..|bases| - 1], lookup, ledger))
  }

  /** One step of a loop that had stopped logs nothing. */
  lemma RunLogNone<S, L>(step: (int, S) -> Option<S>, log: (int, S, L) -> L, init: S, l0: L, n: nat)
    requires n > 0 && Run(step, init, n - 1).None?
    ensures RunLog(step, log, init, l0, n) == RunLog(step, log, init, l0, n - 1)
  {
  }

  /** One step of a loop still running logs that step. */
  lemma RunLogSome<S, L>(step: (int, S) -> Option<S>, log: (int, S, L) -> L, init: S, l0: L, n: nat)
    requires n > 0 && Run(step, init, n - 1).Some?
    ensures RunLog(step, log, init, l0, n) == log(n - 1, Run(step, init, n - 1).value, RunLog(step, log, init, l0, n - 1))
  {
  }

  /** One member's records only add to the ledger. */
  lemma MemberLedgerGrows(base: seq<Section>, m: int, lookup: Lookup, st: Stage, ledger: Ledger)
    requires 0 <= m < |base|
    ensures LedgerGrows(MemberLedger(base, m, lookup, st, ledger), ledger)
  {
    var coreqs := GetCoreqs(base[m]);
    ResolveLedgerPrefix(base, m, st.frontier, lookup, coreqs, Progress([], st.names, st.processed), ledger, 0);
    assert coreqs[..0] == [];
  }

  /** A step taken after a rejection, or past the last member, records nothing. */
  lemma CoreqLedgerIdle(base: seq<Section>, lookup: Lookup, n: nat, ledger: Ledger)
    requires n > 0 && (Advance(base, lookup, n - 1).None? || n - 1 >= |base|)
    ensures CoreqLedger(base, lookup, n, ledger) == CoreqLedger(base, lookup, n - 1, ledger)
  {
    var step, log, init := MemberSteps(base, lookup), MemberLogs(base, lookup), Stage([base], BaseNames(base), {});
    if Advance(base, lookup, n - 1).None? {
      RunLogNone(step, log, init, ledger, n);
    } else {
      RunLogSome(step, log, init, ledger, n);
    }
  }

  /** One member of the corequisite stage only adds records. */
  lemma CoreqLedgerStepGrows(base: seq<Section>, lookup: Lookup, n: nat, ledger: Ledger)
    requires n > 0
    ensures LedgerGrows(CoreqLedger(base, lookup, n, ledger), CoreqLedger(base, lookup, n - 1, ledger))
  {
    var before := CoreqLedger(base, lookup, n - 1, ledger);
    if Advance(base, lookup, n - 1).Some? && n - 1 < |base| {
      CoreqLedgerNext(base, lookup, n - 1, ledger);
      MemberLedgerGrows(base, n - 1, lookup, Advance(base, lookup, n - 1).value, before);
    } else {
      CoreqLedgerIdle(base, lookup, n, ledger);
    }
  }

  /** The corequisite stage only adds records. */
  lemma {:induction false} CoreqLedgerGrows(base: seq<Section>, lookup: Lookup, n: nat, ledger: Ledger)
    ensures LedgerGrows(CoreqLedger(base, lookup, n, ledger), ledger)
    decreases n
  {
    if n > 0 {
      CoreqLedgerGrows(base, lookup, n - 1, ledger);
      CoreqLedgerStepGrows(base, lookup, n, ledger);
      LedgerGrowsTrans(CoreqLedger(base, lookup, n, ledger), CoreqLedger(base, lookup, n - 1, ledger), ledger);
    }
  }

  /** One base tuple's records only add to the ledger. */
  lemma BaseLedgerGrows(base: seq<Section>, lookup: Lookup, ledger: Ledger)
    ensures LedgerGrows(BaseLedger(base, lookup, ledger), ledger)
  {
    var sorted := SortBy(ParseAll(base), DateKey);
    DateSortFacts(base);
    CoreqLedgerGrows(sorted, lookup, |sorted|, ledger);
  }

  /** The records of the first `k` base tuples are kept by the records of all of them. */
  lemma {:induction false} GeneratedLedgerPrefix(bases: seq<seq<Section>>, lookup: Lookup, ledger: Ledger, k: nat)
    requires k <= |bases|
    ensures LedgerGrows(GeneratedLedger(bases, lookup, ledger), GeneratedLedger(bases[..k], lookup, ledger))
    decreases |bases|
  {
    if k < |bases| {
      var init := bases[..|bases| - 1];
      assert init[..k] == bases[..k];
      GeneratedLedgerPrefix(init, lookup, ledger, k);
      var before := GeneratedLedger(init, lookup, ledger);
      BaseLedgerGrows(bases[|bases| - 1], lookup, before);
      LedgerGrowsTrans(GeneratedLedger(bases, lookup, ledger), before, GeneratedLedger(bases[..k], lookup, ledger));
    } else {
      assert bases[..k] == bases;
    }
  }

  /** A base tuple whose full scan raises leaves its message under `has_time_conflict` and, with
      the tuple, under the generator's name, and the tuples after it do not remove them: the
      failure is recorded and the generator goes on. */
  lemma FailedTupleRecorded(bases: seq<seq<Section>>, lookup: Lookup, ledger: Ledger, b: int)
    requires 0 <= b < |bases|
    requires var sorted := SortBy(ParseAll(bases[b]), DateKey);
      AllParsed(sorted) && ScanFrom(sorted, 0, 1).Err?
    ensures var msg := ScanFrom(SortBy(ParseAll(bases[b]), DateKey), 0, 1).msg;
      var l := GeneratedLedger(bases, lookup, ledger);
      && HasTimeConflictStage in l && msg + " " in l[HasTimeConflictStage]
      && GenerateStage in l && msg + " in combination " + Describe(bases[b]) in l[GenerateStage]
  {
    var sorted := SortBy(ParseAll(bases[b]), DateKey);
    var msg := ScanFrom(sorted, 0, 1).msg;
    var before := GeneratedLedger(bases[..b], lookup, ledger);
    GeneratedLedgerSnoc(bases, lookup, b, ledger);
    assert GeneratedLedger(bases[..b + 1], lookup, ledger)
        == Record(Record(before, HasTimeConflictStage, msg + " "), GenerateStage, msg + " in combination " + Describe(bases[b]));
    GeneratedLedgerPrefix(bases, lookup, ledger, b + 1);
  }

  /** Outcomes that are each the reference result concatenate to the reference result. */
  lemma {:induction false} OutcomesGenerated(bases: seq<seq<Section>>, perBase: seq<seq<seq<Section>>>,
                                             lookup: Lookup)
    requires |perBase| == |bases|
    requires forall b :: 0 <= b < |bases| ==> BaseOutcome(bases[b], perBase[b], lookup)
    ensures Flatten(perBase) == Generated(bases, lookup)
    decreases |bases|
  {
    if bases != [] {
      assert BaseOutcome(bases[0], perBase[0], lookup);
      OutcomesGenerated(bases[1..], perBase[1..], lookup);
    }
  }

  /** What one base tuple contributes: nothing unless the full check passed it, and then
      combinations that extend its sorted, annotated copy by corequisite records that passed the
      incremental check, each record the first of its id, no id twice, every member with
      corequisites covered; the copy itself when no member declares corequisites. */
  ghost predicate BaseOutcome(base: seq<Section>, out: seq<seq<Section>>, lookup: Lookup)
  {
    var sorted := SortBy(ParseAll(base), DateKey);
    && (out != [] ==> ScanClear(sorted) && forall i :: 0 <= i < |sorted| ==> !AllCoreqsPresent(sorted, i))
    && (forall e :: e in out ==> Completed(e, sorted, lookup))
    && (ScanClear(sorted) && NoCoreqs(sorted) ==> out == [sorted])
    && out == BaseResult(base, lookup)
  }

  /** One base tuple of the generator: the full check, then the corequisites when it passed;
      an exception from the check is recorded under the check's stage and the generator's. */
  method ProcessBase(base: seq<Section>, lookup: Lookup, cache0: Cache, ledger0: Ledger)
    returns (out: seq<seq<Section>>, cache: Cache, ledger: Ledger, ghost fetched: seq<string>)
    requires CacheFaithful(cache0, lookup)
    ensures BaseOutcome(base, out, lookup)
    ensures ledger == BaseLedger(base, lookup, ledger0)
    ensures CacheFaithful(cache, lookup) && CacheExtends(cache, cache0)
    ensures LedgerGrows(ledger, ledger0)
    ensures FetchLog(fetched, cache, cache0)
  {
    var r, sorted := HasInternalConflict(base);
    assert BaseLedger(base, lookup, ledger0) == VerdictLedger(base, sorted, lookup, r, ledger0);
    out, cache, ledger, fetched := [], cache0, ledger0, [];
    if r.Err? {
      ledger := Record(ledger, HasTimeConflictStage, r.msg + " ");
      ledger := Record(ledger, GenerateStage, r.msg + " in combination " + Describe(base));
    } else if r == Ok(false) {
      out, cache, ledger, fetched := AddCoreqs(sorted, lookup, cache0, ledger0);
      ClearOutcome(base, sorted, out, lookup);
      return;
    }
    RejectedOutcome(base, sorted, lookup);
  }

  /** A tuple the full scan rejects contributes nothing. */
  lemma RejectedOutcome(base: seq<Section>, sorted: seq<Section>, lookup: Lookup)
    requires sorted == SortBy(ParseAll(base), DateKey) && !ScanClear(sorted)
    ensures BaseOutcome(base, [], lookup)
  {
  }

  /** A tuple the full scan passes contributes what the corequisite pass returns for it. */
  lemma ClearOutcome(base: seq<Section>, sorted: seq<Section>, out: seq<seq<Section>>, lookup: Lookup)
    requires sorted == SortBy(ParseAll(base), DateKey) && ScanClear(sorted)
    requires forall e :: e in out ==> Completed(e, sorted, lookup)
    requires out != [] ==> forall i :: 0 <= i < |sorted| ==> !AllCoreqsPresent(sorted, i)
    requires NoCoreqs(sorted) ==> out == [sorted]
    requires out == CoreqResult(sorted, lookup)
    ensures BaseOutcome(base, out, lookup)
  {
  }

  /** The loop over the base tuples: each contributes its outcome, in order; the cache of
      fetched corequisite ids is shared by all of them. */
  method ProcessBases(bases: seq<seq<Section>>, lookup: Lookup, ledger0: Ledger)
    returns (valid: seq<seq<Section>>, ledger: Ledger, ghost perBase: seq<seq<seq<Section>>>,
             ghost fetched: seq<string>)
    ensures |perBase| == |bases|
    ensures valid == Flatten(perBase)
    ensures forall b :: 0 <= b < |perBase| ==> BaseOutcome(bases[b], perBase[b], lookup)
    ensures valid == Generated(bases, lookup)
    ensures ledger == GeneratedLedger(bases, lookup, ledger0)
    ensures LedgerGrows(ledger, ledger0)
    ensures forall i, j :: 0 <= i < j < |fetched| ==> fetched[i] != fetched[j]
  {
    var cache: Cache := map[];
    valid, ledger, perBase, fetched := [], ledger0, [], [];
    for b := 0 to |bases|
      invariant BasesProcessed(bases, lookup, b, valid, perBase, cache, ledger, ledger0, fetched)
    {
      valid, perBase, cache, ledger, fetched := ProcessNext(bases, lookup, b, valid, perBase, cache, ledger, ledger0, fetched);
    }
    OutcomesGenerated(bases, perBase, lookup);
    assert bases[..|bases|] == bases;
  }

  /** The loop over the base tuples has handled the first `b` of them: `perBase` holds their
      outcomes, `valid` their concatenation, `ledger` their records and `fetched` the ids the
      shared cache gained on the way. */
  ghost predicate BasesProcessed(bases: seq<seq<Section>>, lookup: Lookup, b: int, valid: seq<seq<Section>>,
                                 perBase: seq<seq<seq<Section>>>, cache: Cache, ledger: Ledger, ledger0: Ledger,
                                 fetched: seq<string>)
  {
    && 0 <= b <= |bases|
    && |perBase| == b
    && valid == Flatten(perBase)
    && (forall b' :: 0 <= b' < b ==> BaseOutcome(bases[b'], perBase[b'], lookup))
    && CacheFaithful(cache, lookup)
    && LedgerGrows(ledger, ledger0)
    && ledger == GeneratedLedger(bases[..b], lookup, ledger0)
    && FetchLog(fetched, cache, map[])
  }

  /** One pass of that loop: base tuple `b` adds its outcome and its records. */
  method ProcessNext(bases: seq<seq<Section>>, lookup: Lookup, b: int, valid0: seq<seq<Section>>,
                     ghost perBase0: seq<seq<seq<Section>>>, cache0: Cache, ledger0: Ledger, ghost start: Ledger,
                     ghost fetched0: seq<string>)
    returns (valid: seq<seq<Section>>, ghost perBase: seq<seq<seq<Section>>>, cache: Cache, ledger: Ledger,
             ghost fetched: seq<string>)
    requires b < |bases| && BasesProcessed(bases, lookup, b, valid0, perBase0, cache0, ledger0, start, fetched0)
    ensures BasesProcessed(bases, lookup, b + 1, valid, perBase, cache, ledger, start, fetched)
  {
    var out;
    ghost var fetchedHere;
    out, cache, ledger, fetchedHere := ProcessBase(bases[b], lookup, cache0, ledger0);
    FetchLogAppend(fetched0, fetchedHere, map[], cache0, cache);
    FlattenSnoc(perBase0, out);
    BaseOutcomesSnoc(bases, perBase0, out, lookup);
    GeneratedLedgerSnoc(bases, lookup, b, start);
    LedgerGrowsTrans(ledger, ledger0, start);
    valid, fetched, perBase := valid0 + out, fetched0 + fetchedHere, perBase0 + [out];
  }

  /** The records of the first `b + 1` tuples are those of the first `b` followed by tuple `b`'s. */
  lemma GeneratedLedgerSnoc(bases: seq<seq<Section>>, lookup: Lookup, b: nat, ledger: Ledger)
    requires b < |bases|
    ensures GeneratedLedger(bases[..b + 1], lookup, ledger)
         == BaseLedger(bases[b], lookup, GeneratedLedger(bases[..b], lookup, ledger))
  {
    assert bases[..b + 1][..b] == bases[..b];
  }

  lemma BaseOutcomesSnoc(bases: seq<seq<Section>>, perBase: seq<seq<seq<Section>>>, out: seq<seq<Section>>,
                         lookup: Lookup)
    requires |perBase| < |bases|
    requires forall b :: 0 <= b < |perBase| ==> BaseOutcome(bases[b], perBase[b], lookup)
    requires BaseOutcome(bases[|perBase|], out, lookup)
    ensures forall b :: 0 <= b < |perBase| + 1 ==> BaseOutcome(bases[b], (perBase + [out])[b], lookup)
  {
    forall b | 0 <= b < |perBase| + 1
      ensures BaseOutcome(bases[b], (perBase + [out])[b], lookup)
    {
      if b < |perBase| {
        assert (perBase + [out])[b] == perBase[b];
      }
    }
  }

  lemma LedgerGrowsTrans(c: Ledger, b: Ledger, a: Ledger)
    requires LedgerGrows(c, b) && LedgerGrows(b, a)
    ensures LedgerGrows(c, a)
  {
  }

  /** `generate_combinations_with_coreqs` over the per-course section lists (in course order)
      and an abstract lookup. `perBase[b]` is what the `b`-th tuple of the product contributes,
      and the output is their concatenation, in product order. An id whose fetch succeeds is
      cached, so it is fetched successfully at most once; a fetch that fails is not cached, and
      the id is queried again when it next occurs. */
  method GenerateCombinations(courses: seq<seq<Section>>, lookup: Lookup, ledger0: Ledger)
    returns (valid: seq<seq<Section>>, ledger: Ledger, ghost perBase: seq<seq<seq<Section>>>,
             ghost fetched: seq<string>)
    ensures |perBase| == |Product(courses)|
    ensures valid == Flatten(perBase)
    ensures forall b :: 0 <= b < |perBase| ==> BaseOutcome(Product(courses)[b], perBase[b], lookup)
    ensures valid == Generated(Product(courses), lookup)
    ensures ledger == GeneratedLedger(Product(courses), lookup, ledger0)
    ensures (forall i, k :: 0 <= i < |courses| && 0 <= k < |courses[i]| ==> WellDated(courses[i][k]))
      ==> forall e :: e in valid ==> OverlapClear(e) && !HasClashingPair(e)
    ensures (forall i, k :: 0 <= i < |courses| && 0 <= k < |courses[i]| ==>
               GetCoreqs(courses[i][k]) == [] && WellDated(courses[i][k]) && WellTimed(courses[i][k]))
      ==> valid == ClashFree(Product(courses))
    ensures LedgerGrows(ledger, ledger0)
    ensures forall i, j :: 0 <= i < j < |fetched| ==> fetched[i] != fetched[j]
  {
    valid, ledger, perBase, fetched := ProcessBases(Product(courses), lookup, ledger0);
    if forall i, k :: 0 <= i < |courses| && 0 <= k < |courses[i]| ==> WellDated(courses[i][k]) {
      forall e | e in valid ensures OverlapClear(e) && !HasClashingPair(e) {
        GeneratedConflictFree(courses, lookup, perBase, e);
      }
    }
    if forall i, k :: 0 <= i < |courses| && 0 <= k < |courses[i]| ==>
         GetCoreqs(courses[i][k]) == [] && WellDated(courses[i][k]) && WellTimed(courses[i][k]) {
      GeneratedWithoutCoreqs(courses, lookup, perBase);
    }
  }

  // ---------------------------------------------------------------------------------------
  // What the generator promises

  /** Records appended to a conflict-free sorted tuple keep every date-overlapping pair free of
      conflict: a pair inside the tuple is covered by the tuple, a pair ending in an appended
      record by the incremental check that admitted it. */
  lemma CompletedOverlapClear(e: seq<Section>, sorted: seq<Section>, lookup: Lookup)
    requires Completed(e, sorted, lookup) && OverlapClear(sorted)
    ensures OverlapClear(e)
  {
    forall p, q | 0 <= p < q < |e| && DatesOverlap(e[p], e[q])
      ensures CheckTimeConflict(e[p], e[q]) == Ok(false)
    {
      if q < |sorted| {
        assert e[p] == sorted[p] && e[q] == sorted[q];
      }
    }
  }

  /** Every combination a base tuple with forward date ranges contributes is conflict-free. */
  lemma ValidCombinationConflictFree(base: seq<Section>, out: seq<seq<Section>>, lookup: Lookup,
                                     e: seq<Section>)
    requires BaseOutcome(base, out, lookup) && e in out
    requires forall k :: 0 <= k < |base| ==> WellDated(base[k])
    ensures OverlapClear(e) && !HasClashingPair(e)
  {
    var sorted := SortBy(ParseAll(base), DateKey);
    DateSortFacts(base);
    ScanClearIffOverlapClear(sorted);
    CompletedOverlapClear(e, sorted, lookup);
    OverlapClearNoClashingPair(e);
  }

  /** A section of the `b`-th base tuple comes from the list of its own course. */
  lemma BaseMember(courses: seq<seq<Section>>, b: int, k: int)
    requires 0 <= b < |Product(courses)| && 0 <= k < |Product(courses)[b]|
    ensures k < |courses| && Product(courses)[b][k] in courses[k]
  {
    ProductMembers(courses, Product(courses)[b]);
  }

  /** The key invariant: when every offered section has a forward date range, every combination
      the generator emits is conflict-free. */
  lemma GeneratedConflictFree(courses: seq<seq<Section>>, lookup: Lookup,
                              perBase: seq<seq<seq<Section>>>, e: seq<Section>)
    requires |perBase| == |Product(courses)|
    requires forall b :: 0 <= b < |perBase| ==> BaseOutcome(Product(courses)[b], perBase[b], lookup)
    requires forall i, k :: 0 <= i < |courses| && 0 <= k < |courses[i]| ==> WellDated(courses[i][k])
    requires e in Flatten(perBase)
    ensures OverlapClear(e) && !HasClashingPair(e)
  {
    FlattenMembers(perBase, e);
    var b :| 0 <= b < |perBase| && e in perBase[b];
    var base := Product(courses)[b];
    forall k | 0 <= k < |base| ensures WellDated(base[k]) {
      BaseMember(courses, b, k);
      var i :| 0 <= i < |courses[k]| && courses[k][i] == base[k];
    }
    ValidCombinationConflictFree(base, perBase[b], lookup, e);
  }

  /** What the generator gives when no section declares corequisites: each base tuple without a
      clashing pair, sorted, in product order. */
  ghost function ClashFree(bases: seq<seq<Section>>): seq<seq<Section>>
    decreases |bases|
  {
    if bases == [] then []
    else
      (if HasClashingPair(ParseAll(bases[0])) then [] else [SortBy(ParseAll(bases[0]), DateKey)])
      + ClashFree(bases[1..])
  }

  /** Annotating and sorting keeps a tuple free of corequisites. */
  lemma SortedNoCoreqs(base: seq<Section>)
    requires NoCoreqs(base)
    ensures NoCoreqs(SortBy(ParseAll(base), DateKey))
  {
    var u := ParseAll(base);
    var t := SortBy(u, DateKey);
    forall k | 0 <= k < |t| ensures GetCoreqs(t[k]) == [] {
      assert t[k] in multiset(u);
      var o := Origin(u, t[k]);
      assert t[k].coreqSections == base[o].coreqSections;
    }
  }

  /** A corequisite-free base tuple with forward date ranges and paired times contributes its
      sorted copy exactly when no two of its members clash, and nothing otherwise. */
  lemma NoCoreqsOutcome(base: seq<Section>, out: seq<seq<Section>>, lookup: Lookup)
    requires BaseOutcome(base, out, lookup) && NoCoreqs(base)
    requires forall k :: 0 <= k < |base| ==> WellDated(base[k]) && WellTimed(base[k])
    ensures out == if HasClashingPair(ParseAll(base)) then [] else [SortBy(ParseAll(base), DateKey)]
  {
    var sorted := SortBy(ParseAll(base), DateKey);
    DateSortFacts(base);
    ScanClearIffOverlapClear(sorted);
    OverlapClearIffNoClash(base);
    SortedNoCoreqs(base);
  }

  lemma {:induction false} NoCoreqsOutcomes(bases: seq<seq<Section>>, perBase: seq<seq<seq<Section>>>,
                                            lookup: Lookup)
    requires |perBase| == |bases|
    requires forall b :: 0 <= b < |bases| ==> BaseOutcome(bases[b], perBase[b], lookup)
    requires forall b :: 0 <= b < |bases| ==> NoCoreqs(bases[b])
    requires forall b, k :: 0 <= b < |bases| && 0 <= k < |bases[b]| ==>
      WellDated(bases[b][k]) && WellTimed(bases[b][k])
    ensures Flatten(perBase) == ClashFree(bases)
    decreases |bases|
  {
    if bases != [] {
      NoCoreqsOutcome(bases[0], perBase[0], lookup);
      NoCoreqsOutcomes(bases[1..], perBase[1..], lookup);
    }
  }

  /** Without corequisites anywhere, the generator's output is exactly the conflict-free base
      tuples, each sorted, in product order. */
  lemma GeneratedWithoutCoreqs(courses: seq<seq<Section>>, lookup: Lookup,
                               perBase: seq<seq<seq<Section>>>)
    requires |perBase| == |Product(courses)|
    requires forall b :: 0 <= b < |perBase| ==> BaseOutcome(Product(courses)[b], perBase[b], lookup)
    requires forall i, k :: 0 <= i < |courses| && 0 <= k < |courses[i]| ==>
      GetCoreqs(courses[i][k]) == [] && WellDated(courses[i][k]) && WellTimed(courses[i][k])
    ensures Flatten(perBase) == ClashFree(Product(courses))
  {
    var bases := Product(courses);
    forall b, k | 0 <= b < |bases| && 0 <= k < |bases[b]|
      ensures GetCoreqs(bases[b][k]) == [] && WellDated(bases[b][k]) && WellTimed(bases[b][k])
    {
      BaseMember(courses, b, k);
      var i :| 0 <= i < |courses[k]| && courses[k][i] == bases[b][k];
    }
    NoCoreqsOutcomes(bases, perBase, lookup);
  }

  /** One corequisite-free section per course: exactly one combination (the sorted tuple) when
      no two of them clash, none otherwise. */
  lemma OneSectionPerCourse(courses: seq<seq<Section>>, lookup: Lookup, perBase: seq<seq<seq<Section>>>)
    requires forall i :: 0 <= i < |courses| ==> |courses[i]| == 1
    requires |perBase| == |Product(courses)|
    requires forall b :: 0 <= b < |perBase| ==> BaseOutcome(Product(courses)[b], perBase[b], lookup)
    requires forall i :: 0 <= i < |courses| ==>
      GetCoreqs(courses[i][0]) == [] && WellDated(courses[i][0]) && WellTimed(courses[i][0])
    ensures var base := ParseAll(Firsts(courses));
      Flatten(perBase) == if HasClashingPair(base) then [] else [SortBy(base, DateKey)]
  {
    ProductOfSingletons(courses);
    GeneratedWithoutCoreqs(courses, lookup, perBase);
    assert Product(courses)[1..] == [];
  }
}
