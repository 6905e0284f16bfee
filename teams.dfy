/** A team record as the team list pages and the team query endpoint see it,
    and the free-text match both of them apply to it. */
module Teams {
  import opened Wrappers
  import opened Text
  import opened Seqs

  /** `team_number`, `nickname` and `city`; the city may be `null`. */
  datatype Team = Team(number: nat, nickname: string, city: Option<string>)

  /** `team.team_number + team.nickname + team.city`: the number becomes its
      decimal text and a `null` city becomes the text "null". */
  function SearchText(t: Team): (s: string)
    ensures StartsWith(s, Decimal(t.number))
  {
    Decimal(t.number) + t.nickname + (match t.city case Some(c) => c case None => "null")
  }

  /** The search text, lower-cased, includes the lower-cased search term. */
  predicate MatchesSearch(t: Team, term: string)
  {
    Includes(Lower(SearchText(t)), Lower(term))
  }

  /** The teams of `ts` that match `term`, in their order. */
  function MatchingTeams(ts: seq<Team>, term: string): (r: seq<Team>)
    ensures IsSubsequence(r, ts)
    ensures forall t :: t in r <==> t in ts && MatchesSearch(t, term)
    ensures forall t {:trigger multiset(r)[t]} :: multiset(r)[t] == if MatchesSearch(t, term) then multiset(ts)[t] else 0
  {
    FilterIsSubsequence(ts, t => MatchesSearch(t, term));
    FilterCounts(ts, t => MatchesSearch(t, term));
    Filter(ts, t => MatchesSearch(t, term))
  }

  /** Every team's number, as typed, finds that team: a digit string is its
      own lower-case form and opens the search text. */
  lemma NumberFindsTeam(t: Team)
    ensures MatchesSearch(t, Decimal(t.number))
  {
    var d := Decimal(t.number);
    var rest := t.nickname + (match t.city case Some(c) => c case None => "null");
    assert SearchText(t) == d + rest;
    LowerKeepsNonUpper(d);
    LowerConcat(d, rest);
    IncludesIff(Lower(SearchText(t)), d);
    assert Lower(SearchText(t))[0..|d|] == d;
    assert OccursAt(Lower(SearchText(t)), d, 0);
  }

  /** The match ignores the case of the term. */
  lemma MatchingIgnoresCase(ts: seq<Team>, a: string, b: string)
    requires Lower(a) == Lower(b)
    ensures MatchingTeams(ts, a) == MatchingTeams(ts, b)
  {
    FilterExt(ts, t => MatchesSearch(t, a), t => MatchesSearch(t, b));
  }
}
