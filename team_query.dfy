/** The `/api/team/query` handler: it gathers the team list from twenty pages
    and answers either a free-text query `q` or a "number family" query `f`. */
module TeamQuery {
  import opened Wrappers
  import opened Text
  import opened Seqs
  import opened Teams

  /** The page names requested, "0" to "19". */
  function PageNames(): (r: seq<string>)
    ensures |r| == 20
    ensures r[0] == "0" && r[9] == "9" && r[10] == "10" && r[19] == "19"
    ensures forall i :: 0 <= i < 20 ==> AllDigits(r[i]) && DecimalValue(r[i]) == i
    ensures forall i :: 0 <= i < 20 ==> r[i] == Decimal(i)
  {
    DecimalsReadBack(20);
    seq(20, i requires 0 <= i => Decimal(i))
  }

  /** `pages.flatMap(page => page)`: the pages, one after another. */
  function Flatten(pages: seq<seq<Team>>): (r: seq<Team>)
    ensures |pages| == 0 ==> r == []
  {
    if pages == [] then [] else pages[0] + Flatten(pages[1..])
  }

  lemma {:induction false} FlattenAppend(a: seq<seq<Team>>, b: seq<seq<Team>>)
    ensures Flatten(a + b) == Flatten(a) + Flatten(b)
    decreases |a|
  {
    if a == [] {
      assert a + b == b;
    } else {
      assert (a + b)[0] == a[0];
      assert (a + b)[1..] == a[1..] + b;
      FlattenAppend(a[1..], b);
    }
  }

  /** A team is in the flattened list exactly when some page holds it. */
  lemma {:induction false} FlattenMembership(pages: seq<seq<Team>>, t: Team)
    ensures t in Flatten(pages) <==> exists i :: 0 <= i < |pages| && t in pages[i]
    decreases |pages|
  {
    if pages != [] {
      FlattenMembership(pages[1..], t);
      if exists i :: 0 <= i < |pages| && t in pages[i] {
        var i :| 0 <= i < |pages| && t in pages[i];
        if i > 0 {
          assert t in pages[1..][i - 1];
        }
      }
      if t in Flatten(pages[1..]) {
        var i :| 0 <= i < |pages[1..]| && t in pages[1..][i];
        assert t in pages[i + 1];
      }
    }
  }

  /** The source list: the teams of page "0", then of page "1", ..., then of
      page "19"; `fetchPage` stands for the page request. */
  function SourceTeams(fetchPage: string -> seq<Team>): seq<Team>
  {
    Flatten(seq(20, i requires 0 <= i < 20 => fetchPage(PageNames()[i])))
  }

  /** The source list is page "0" followed by the teams of the pages after it,
      in page order. */
  lemma SourceOrder(fetchPage: string -> seq<Team>, k: nat)
    requires k <= 20
    ensures SourceTeams(fetchPage) ==
      Flatten(seq(k, i requires 0 <= i < k => fetchPage(PageNames()[i]))) +
      Flatten(seq(20 - k, i requires 0 <= i < 20 - k => fetchPage(PageNames()[k + i])))
  {
    var all := seq(20, i requires 0 <= i < 20 => fetchPage(PageNames()[i]));
    var front := seq(k, i requires 0 <= i < k => fetchPage(PageNames()[i]));
    var back := seq(20 - k, i requires 0 <= i < 20 - k => fetchPage(PageNames()[k + i]));
    assert all == front + back;
    FlattenAppend(front, back);
  }

  /** A query parameter is truthy when it is given and not empty. */
  predicate Truthy(p: Option<string>)
  {
    p.Some? && p.value != ""
  }

  /** The "number family" rule for `f`: a long `f` selects the numbers with
      its first character and its length; a short one selects every number of
      at most three digits. */
  predicate InFamily(f: string, t: Team)
  {
    var n := Decimal(t.number);
    if |f| > 3 then n[..1] == f[..1] && |n| == |f| else |n| < 4
  }

  function FamilyTeams(ts: seq<Team>, f: string): (r: seq<Team>)
    ensures IsSubsequence(r, ts)
    ensures forall t :: t in r <==> t in ts && InFamily(f, t)
    ensures forall t {:trigger multiset(r)[t]} :: multiset(r)[t] == if InFamily(f, t) then multiset(ts)[t] else 0
  {
    FilterIsSubsequence(ts, t => InFamily(f, t));
    FilterCounts(ts, t => InFamily(f, t));
    Filter(ts, t => InFamily(f, t))
  }

  /** What the handler does: a 200 response carrying a list of teams, or no
      response at all. */
  datatype Response = NoResponse | Teams(teams: seq<Team>)

  /** The handler on the source list `source`. */
  function GetTeams(q: Option<string>, f: Option<string>, source: seq<Team>): (r: Response)
    ensures r.NoResponse? <==> !Truthy(q) && !Truthy(f)
  {
    if Truthy(q) then Teams(MatchingTeams(source, q.value))
    else if Truthy(f) then Teams(FamilyTeams(source, f.value))
    else NoResponse
  }

  /** With `q` given, every team returned matches it, in source order, and
      every matching team is returned. */
  lemma QueryFilter(q: string, f: Option<string>, source: seq<Team>)
    requires q != ""
    ensures GetTeams(Some(q), f, source).Teams?
    ensures IsSubsequence(GetTeams(Some(q), f, source).teams, source)
    ensures forall t :: t in GetTeams(Some(q), f, source).teams <==>
      t in source && Includes(Lower(SearchText(t)), Lower(q))
  {
  }

  /** `q` takes precedence: `f` plays no part once `q` is truthy. */
  lemma QueryPrecedence(q: Option<string>, f1: Option<string>, f2: Option<string>, source: seq<Team>)
    requires Truthy(q)
    ensures GetTeams(q, f1, source) == GetTeams(q, f2, source)
  {
  }

  /** The query ignores case: "HOUSTON" and "houston" give the same teams. */
  lemma QueryIgnoresCase(a: string, b: string, f: Option<string>, source: seq<Team>)
    requires a != "" && b != "" && Lower(a) == Lower(b)
    ensures GetTeams(Some(a), f, source) == GetTeams(Some(b), f, source)
  {
    MatchingIgnoresCase(source, a, b);
  }

  /** A long `f` returns exactly the teams whose number has the first
      character and the length of `f`. */
  lemma LongFamily(q: Option<string>, f: string, source: seq<Team>)
    requires !Truthy(q) && |f| > 3
    ensures GetTeams(q, Some(f), source).Teams?
    ensures forall t :: t in GetTeams(q, Some(f), source).teams <==>
      t in source && Decimal(t.number)[0] == f[0] && |Decimal(t.number)| == |f|
  {
    forall t | t in source
      ensures InFamily(f, t) <==> Decimal(t.number)[0] == f[0] && |Decimal(t.number)| == |f|
    {
      var n := Decimal(t.number);
      assert n[..1] == [n[0]] && f[..1] == [f[0]];
    }
  }

  /** A long `f` with a leading zero, or not starting with a digit, finds
      nothing: decimal text never starts that way (bar "0" itself). */
  lemma LongFamilyNoDigitStart(q: Option<string>, f: string, source: seq<Team>)
    requires !Truthy(q) && |f| > 3 && (f[0] == '0' || !IsDigit(f[0]))
    ensures GetTeams(q, Some(f), source) == Teams([])
  {
    forall t | t in source
      ensures !InFamily(f, t)
    {
      var n := Decimal(t.number);
      assert n[..1] == [n[0]] && f[..1] == [f[0]];
    }
    FilterNone(source, t => InFamily(f, t));
  }

  /** A short `f` (one to three characters) returns exactly the teams
      numbered below 1000, whatever the characters of `f` are. */
  lemma ShortFamily(q: Option<string>, f: string, source: seq<Team>)
    requires !Truthy(q) && 1 <= |f| <= 3
    ensures GetTeams(q, Some(f), source).Teams?
    ensures forall t :: t in GetTeams(q, Some(f), source).teams <==> t in source && t.number < 1000
    ensures GetTeams(q, Some(f), source) == GetTeams(q, Some("1"), source)
  {
    forall t | t in source
      ensures InFamily(f, t) <==> t.number < 1000
    {
      DecimalLength(t.number, 3);
      assert Pow10(3) == 1000;
    }
    FilterExt(source, t => InFamily(f, t), t => InFamily("1", t));
  }

  /** With neither parameter truthy the handler never responds. */
  lemma NoParameters(q: Option<string>, f: Option<string>, source: seq<Team>)
    requires (q == None || q == Some("")) && (f == None || f == Some(""))
    ensures GetTeams(q, f, source) == NoResponse
  {
  }
}
