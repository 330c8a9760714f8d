/**
 * The communities screen: a list of communities searched by name, and
 * creation of a new community from the modal form, which puts it first.
 */
module World {
  import opened Text

  /** A community as the list shows it (the image asset is left out). */
  datatype Community = Community(id: string, name: string, memberCount: int)

  /** The case-insensitive name search: the lower-cased name contains the lower-cased query. */
  predicate Matches(c: Community, query: string) {
    Contains(ToLower(c.name), ToLower(query))
  }

  /** `filteredCommunities`: the communities that match, in list order. */
  function Filtered(cs: seq<Community>, query: string): (r: seq<Community>)
    ensures |r| <= |cs|
    ensures forall c :: c in r ==> c in cs && Matches(c, query)
    decreases |cs|
  {
    if cs == [] then []
    else (if Matches(cs[0], query) then [cs[0]] else []) + Filtered(cs[1..], query)
  }

  /** A community is listed exactly when it is in the list and matches. */
  lemma {:induction false} FilteredMembers(cs: seq<Community>, query: string, c: Community)
    ensures c in Filtered(cs, query) <==> c in cs && Matches(c, query)
    decreases |cs|
  {
    if cs != [] {
      FilteredMembers(cs[1..], query, c);
      assert c in cs <==> c == cs[0] || c in cs[1..] by {
        assert cs == [cs[0]] + cs[1..];
      }
    }
  }

  /** Filtering a list made of two parts filters each part: the order of the list is kept. */
  lemma {:induction false} FilteredAppend(a: seq<Community>, b: seq<Community>, query: string)
    ensures Filtered(a + b, query) == Filtered(a, query) + Filtered(b, query)
    decreases |a|
  {
    if a == [] {
      assert a + b == b;
    } else {
      assert (a + b)[0] == a[0];
      assert (a + b)[1..] == a[1..] + b;
      FilteredAppend(a[1..], b, query);
    }
  }

  lemma ContainsEmpty(s: string)
    ensures Contains(s, "")
  {
    assert IsPrefix("", s);
  }

  /** An empty search lists every community. */
  lemma {:induction false} EmptyQueryKeepsAll(cs: seq<Community>)
    ensures Filtered(cs, "") == cs
    decreases |cs|
  {
    if cs != [] {
      ContainsEmpty(ToLower(cs[0].name));
      EmptyQueryKeepsAll(cs[1..]);
      assert [cs[0]] + cs[1..] == cs;
    }
  }

  /** `mockCommunities`: the four starting communities. */
  function MockCommunities(): (cs: seq<Community>)
    ensures |cs| == 4
  {
    [ Community("1", "AI Enthusiasts", 1245),
      Community("2", "Coding Help", 876),
      Community("3", "Book Club", 532),
      Community("4", "Travel Stories", 1893) ]
  }

  const JoinPrompt := "Join or create a community to get started"

  /** The empty-state text: it names the query when the query is not blank. */
  function EmptyStateMessage(query: string): (message: string)
    ensures IsBlank(query) ==> message == JoinPrompt
    ensures !IsBlank(query) ==> Contains(message, "\"" + query + "\"")
  {
    if !IsBlank(query) then
      var message := "No communities found for \"" + query + "\"";
      assert message == "No communities found for " + ("\"" + query + "\"") + "";
      ContainsMiddle("No communities found for ", "\"" + query + "\"", "");
      message
    else JoinPrompt
  }

  /** A string is found inside any text that has it in the middle. */
  lemma {:induction false} ContainsMiddle(a: string, b: string, c: string)
    ensures Contains(a + b + c, b)
    decreases |a|
  {
    if a == [] {
      assert a + b + c == b + c;
      assert (b + c)[..|b|] == b;
    } else {
      assert (a + b + c)[1..] == a[1..] + b + c;
      ContainsMiddle(a[1..], b, c);
    }
  }

  /** The id `String(n)` of the n-th community created, counting the starting four. */
  predicate Numbered(cs: seq<Community>, numbers: seq<nat>) {
    |numbers| == |cs|
    && (forall i :: 0 <= i < |cs| ==> cs[i].id == NatToString(numbers[i]) && 1 <= numbers[i] <= |cs|)
    && (forall i, j :: 0 <= i < j < |numbers| ==> numbers[i] != numbers[j])
  }

  predicate IdsDistinct(cs: seq<Community>) {
    forall i, j :: 0 <= i < j < |cs| ==> cs[i].id != cs[j].id
  }

  lemma NumberedIdsDistinct(cs: seq<Community>, numbers: seq<nat>)
    requires Numbered(cs, numbers)
    ensures IdsDistinct(cs)
  {
    forall i, j | 0 <= i < j < |cs|
      ensures cs[i].id != cs[j].id
    {
      if cs[i].id == cs[j].id {
        NatToStringInjective(numbers[i], numbers[j]);
      }
    }
  }

  /** Putting community `|cs| + 1` in front keeps the numbering: the new id is not taken. */
  lemma PrependKeepsNumbered(cs: seq<Community>, numbers: seq<nat>, name: string)
    requires Numbered(cs, numbers)
    ensures Numbered([Community(NatToString(|cs| + 1), name, 0)] + cs, [|cs| + 1] + numbers)
  {
    var cs' := [Community(NatToString(|cs| + 1), name, 0)] + cs;
    var ns' := [|cs| + 1] + numbers;
    forall i | 0 <= i < |cs'|
      ensures cs'[i].id == NatToString(ns'[i]) && 1 <= ns'[i] <= |cs'|
    {
      if i > 0 {
        assert cs'[i] == cs[i - 1] && ns'[i] == numbers[i - 1];
      }
    }
    forall i, j | 0 <= i < j < |ns'|
      ensures ns'[i] != ns'[j]
    {
      if i > 0 {
        assert ns'[i] == numbers[i - 1] && ns'[j] == numbers[j - 1];
      }
    }
  }

  /** The screen's `communities`, `searchQuery` and modal visibility state. */
  class WorldScreen {
    var communities: seq<Community>
    var searchQuery: string
    var isCreateModalVisible: bool
    /** For each listed community, the n for which its id is `String(n)`. */
    ghost var numbers: seq<nat>

    ghost predicate Valid()
      reads this
    {
      Numbered(communities, numbers)
    }

    constructor ()
      ensures communities == MockCommunities() && searchQuery == "" && !isCreateModalVisible
      ensures Valid() && IdsDistinct(communities)
    {
      communities := MockCommunities();
      searchQuery := "";
      isCreateModalVisible := false;
      numbers := [1, 2, 3, 4];
      new;
      assert NatToString(1) == "1" && NatToString(2) == "2" && NatToString(3) == "3" && NatToString(4) == "4";
      NumberedIdsDistinct(communities, numbers);
    }

    /** The list shown under the search field. */
    function Visible(): (r: seq<Community>)
      reads this
      ensures r == Filtered(communities, searchQuery)
      ensures searchQuery == "" ==> r == communities
    {
      EmptyQueryKeepsAll(communities);
      Filtered(communities, searchQuery)
    }

    method SetSearchQuery(query: string)
      modifies this
      ensures searchQuery == query && communities == old(communities)
      ensures isCreateModalVisible == old(isCreateModalVisible) && numbers == old(numbers)
    {
      searchQuery := query;
    }

    /** The floating "+" button. */
    method OpenCreateModal()
      modifies this
      ensures isCreateModalVisible && communities == old(communities) && searchQuery == old(searchQuery)
      ensures numbers == old(numbers)
    {
      isCreateModalVisible := true;
    }

    /** The modal's `onClose`. */
    method CloseCreateModal()
      modifies this
      ensures !isCreateModalVisible && communities == old(communities) && searchQuery == old(searchQuery)
      ensures numbers == old(numbers)
    {
      isCreateModalVisible := false;
    }

    /**
     * `handleCreateCommunity`: a new community with id `String(length + 1)`
     * and no members goes first; the description is not used. Ids stay
     * distinct.
     */
    method HandleCreateCommunity(name: string, description: string)
      requires Valid()
      modifies this
      ensures Valid() && IdsDistinct(communities)
      ensures communities == [Community(NatToString(|old(communities)| + 1), name, 0)] + old(communities)
      ensures searchQuery == old(searchQuery) && isCreateModalVisible == old(isCreateModalVisible)
    {
      PrependKeepsNumbered(communities, numbers, name);
      communities := [Community(NatToString(|communities| + 1), name, 0)] + communities;
      numbers := [|numbers| + 1] + numbers;
      NumberedIdsDistinct(communities, numbers);
    }
  }
}
