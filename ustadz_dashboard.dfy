/** The teacher's roster page: a case-insensitive search over the student
    directory, the badge with the roster size, and the choice between the
    table, a spinner and an empty-state message. */
module UstadzDashboard {
  import opened Types
  import opened Text

  /** The fields a search looks at: name, ID, and the class when present and
      non-empty (an empty class string is falsy). */
  function SearchFields(p: Profile): (fs: seq<string>)
    ensures p.name in fs && p.idSantri in fs
    ensures p.kelas.Some? && p.kelas.value != "" ==> p.kelas.value in fs
    ensures forall f :: f in fs ==> f == p.name || f == p.idSantri || (p.kelas.Some? && f == p.kelas.value != "")
  {
    [p.name, p.idSantri] + (if p.kelas.Some? && p.kelas.value != "" then [p.kelas.value] else [])
  }

  /** The search predicate of one directory entry: the lower-cased term occurs
      in the lower-cased name or ID, or in the class when it is present and
      non-empty. */
  predicate Matches(e: Entry, term: string): (r: bool)
    ensures r <==> exists f :: f in SearchFields(e.profile) && Contains(Lower(f), Lower(term))
  {
    var t := Lower(term);
    || Contains(Lower(e.profile.name), t)
    || Contains(Lower(e.profile.idSantri), t)
    || (e.profile.kelas.Some? && e.profile.kelas.value != "" && Contains(Lower(e.profile.kelas.value), t))
  }

  /** `santriList.filter(...)`: the entries that match, in their original order. */
  function Filter(list: seq<Entry>, term: string): (r: seq<Entry>)
    ensures |r| <= |list|
    ensures forall e :: e in r ==> e in list && Matches(e, term)
  {
    if list == [] then []
    else if Matches(list[0], term) then [list[0]] + Filter(list[1..], term)
    else Filter(list[1..], term)
  }

  /** `a` is obtained from `b` by deleting elements, keeping the order. */
  ghost predicate IsSubsequence<T>(a: seq<T>, b: seq<T>)
    decreases |b|
  {
    if a == [] then true
    else if b == [] then false
    else (a[0] == b[0] && IsSubsequence(a[1..], b[1..])) || IsSubsequence(a, b[1..])
  }

  /** Order is preserved and nothing is added. */
  lemma {:induction false} FilterIsSubsequence(list: seq<Entry>, term: string)
    ensures IsSubsequence(Filter(list, term), list)
  {
    if list != [] {
      FilterIsSubsequence(list[1..], term);
      var r := Filter(list, term);
      if Matches(list[0], term) {
        assert r[0] == list[0] && r[1..] == Filter(list[1..], term);
      } else if r != [] {
        assert r == Filter(list[1..], term);
      }
    }
  }

  /** Soundness and completeness: an entry is kept iff it is in the list and matches. */
  lemma {:induction false} FilterMembership(list: seq<Entry>, term: string, e: Entry)
    ensures e in Filter(list, term) <==> e in list && Matches(e, term)
  {
    if list != [] {
      FilterMembership(list[1..], term, e);
      assert list == [list[0]] + list[1..];
    }
  }

  /** The filter keeps every copy of a matching entry and no copy of any other. */
  lemma {:induction false} FilterMultiplicity(list: seq<Entry>, term: string, e: Entry)
    ensures multiset(Filter(list, term))[e] == if Matches(e, term) then multiset(list)[e] else 0
  {
    if list != [] {
      FilterMultiplicity(list[1..], term, e);
      assert list == [list[0]] + list[1..];
    }
  }

  /** An empty search term keeps the whole roster. */
  lemma {:induction false} FilterEmptyTerm(list: seq<Entry>)
    ensures Filter(list, "") == list
  {
    if list != [] {
      ContainsEmpty(Lower(list[0].profile.name));
      FilterEmptyTerm(list[1..]);
    }
  }

  /** Filtering twice with the same term is filtering once. */
  lemma {:induction false} FilterIdempotent(list: seq<Entry>, term: string)
    ensures Filter(Filter(list, term), term) == Filter(list, term)
  {
    if list != [] {
      FilterIdempotent(list[1..], term);
      if Matches(list[0], term) {
        var r := Filter(list, term);
        assert r[0] == list[0] && r[1..] == Filter(list[1..], term);
      }
    }
  }

  /** An entry whose class is absent or empty can match only through name or ID. */
  lemma NoKelasMatchesByNameOrId(e: Entry, term: string)
    requires e.profile.kelas == None || e.profile.kelas == Some("")
    ensures Matches(e, term) <==>
      Contains(Lower(e.profile.name), Lower(term)) || Contains(Lower(e.profile.idSantri), Lower(term))
  {
  }

  /** One rendered table row. */
  datatype Row = Row(key: Principal, name: string, idSantri: string, kelas: string)

  /** What the card body shows. */
  datatype Body = Spinner | Table(rows: seq<Row>) | EmptyState(message: string)

  const NoMatchMessage := "Tidak ada santri yang sesuai dengan pencarian"
  const NoDataMessage := "Belum ada data santri"

  /** `santri.kelas || '-'`: an absent or empty class is shown as a dash. */
  function KelasCell(kelas: Option<string>): (r: string)
    ensures r == "-" <==> kelas == None || kelas == Some("") || kelas == Some("-")
    ensures kelas.Some? && kelas.value != "" ==> r == kelas.value
  {
    if kelas.Some? && kelas.value != "" then kelas.value else "-"
  }

  /** One table row: keyed by the principal, with the class cell showing the
      stored class, or "-" when it is absent or empty. */
  function RowOf(e: Entry): (r: Row)
    ensures r.key == e.principal && r.name == e.profile.name && r.idSantri == e.profile.idSantri
    ensures r.kelas != ""
    ensures r.kelas == KelasCell(e.profile.kelas)
  {
    Row(e.principal, e.profile.name, e.profile.idSantri, KelasCell(e.profile.kelas))
  }

  /** The empty-state text: a search was typed, or the roster is empty. */
  function EmptyMessage(term: string): (r: string)
    ensures r == NoMatchMessage <==> term != ""
    ensures r == NoDataMessage <==> term == ""
  {
    if term != "" then NoMatchMessage else NoDataMessage
  }

  /** The card body for the query state (`santriList` is `None` until loaded). */
  function RosterBody(isLoading: bool, santriList: Option<seq<Entry>>, term: string): (b: Body)
    ensures isLoading <==> b.Spinner?
    ensures b.Table? ==> santriList.Some? && |b.rows| == |Filter(santriList.value, term)| > 0
    ensures b.Table? ==> forall i :: 0 <= i < |b.rows| ==> b.rows[i] == RowOf(Filter(santriList.value, term)[i])
    ensures b.EmptyState? <==> !isLoading && (santriList == None || Filter(santriList.value, term) == [])
    ensures b.EmptyState? ==> b.message == EmptyMessage(term)
  {
    if isLoading then Spinner
    else if santriList.Some? && |Filter(santriList.value, term)| > 0 then
      var shown := Filter(santriList.value, term);
      Table(seq(|shown|, i requires 0 <= i < |shown| => RowOf(shown[i])))
    else EmptyState(EmptyMessage(term))
  }

  /** The badge: the size of the whole roster, shown once it is loaded. */
  function Badge(santriList: Option<seq<Entry>>): (n: Option<nat>)
    ensures n.Some? <==> santriList.Some?
    ensures santriList.Some? ==> n.value == |santriList.value|
  {
    if santriList.Some? then Some(|santriList.value|) else None
  }

  /** The badge counts the whole roster, whatever is typed into the search box. */
  lemma BadgeIgnoresSearch(list: seq<Entry>, term: string)
    ensures Badge(Some(list)).value == |list| >= |Filter(list, term)|
  {
  }

  /** With nothing typed, every loaded entry is listed (or the no-data message shows). */
  lemma EmptySearchShowsAll(list: seq<Entry>)
    ensures RosterBody(false, Some(list), "") ==
      if list == [] then EmptyState(NoDataMessage)
      else Table(seq(|list|, i requires 0 <= i < |list| => RowOf(list[i])))
  {
    FilterEmptyTerm(list);
  }

  /** Searching "1A" in a roster of Ali (1A) and Budi (2B) keeps only Ali. */
  lemma SearchByKelasExample(ali: Principal, budi: Principal)
    ensures var a := Entry(ali, Profile("Ali", "S001", Some("1A"), Santri));
            var b := Entry(budi, Profile("Budi", "S002", Some("2B"), Santri));
            Filter([a, b], "1A") == [a]
  {
    var a := Entry(ali, Profile("Ali", "S001", Some("1A"), Santri));
    var b := Entry(budi, Profile("Budi", "S002", Some("2B"), Santri));
    assert Lower("1A") == "1a";
    assert Lower("1A") == Lower("1a");
    assert Contains(Lower("1A"), "1a") by { assert OccursAt(Lower("1A"), "1a", 0); }
    assert Lower("Budi") == "budi";
    assert Lower("S002") == "s002";
    assert Lower("2B") == "2b";
    MissingFirstChar("budi", "1a");
    MissingFirstChar("s002", "1a");
    MissingFirstChar("2b", "1a");
    assert Matches(a, "1A");
    assert !Matches(b, "1A");
  }
}
