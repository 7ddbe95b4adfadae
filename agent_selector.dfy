/**
 * The agent list of src/components/AgentSelector.tsx: the agents fetched in name order and
 * re-sorted by a fixed rank, and the state that the fetch fills in.
 */
module AgentSelector {
  import opened Wrappers
  import Ordering

  /** A row of `agents` as selected (line 27). */
  datatype Agent = Agent(id: string, name: string, role: string, avatarUrl: Option<string>,
                         chatAvatarUrl: Option<string>)

  /** The rank of a name (lines 35-36): the four agents first, in a fixed order, then every other. */
  function Rank(name: string): (r: nat)
    ensures name == "Dehto" <==> r == 0
    ensures name == "Dohar" <==> r == 1
    ensures name == "Dehtyar" <==> r == 2
    ensures name == "Diyar" <==> r == 3
    ensures r == 99 <==> name !in {"Dehto", "Dohar", "Dehtyar", "Diyar"}
  {
    if name == "Dehto" then 0
    else if name == "Dohar" then 1
    else if name == "Dehtyar" then 2
    else if name == "Diyar" then 3
    else 99
  }

  /** The comparator: `a` may come before `b` when its rank is not greater. */
  function ByRank(): (Agent, Agent) -> bool {
    (a: Agent, b: Agent) => Rank(a.name) <= Rank(b.name)
  }

  lemma ByRankPreorder()
    ensures Ordering.Preorder(ByRank())
  {
  }

  /** The sort of lines 34-37; `Array.prototype.sort` is stable. */
  function RankSort(agents: seq<Agent>): (r: seq<Agent>)
    ensures multiset(r) == multiset(agents)
    ensures forall i, j :: 0 <= i < j < |r| ==> Rank(r[i].name) <= Rank(r[j].name)
  {
    ByRankPreorder();
    Ordering.SortPermutes(agents, ByRank());
    Ordering.SortSorted(agents, ByRank());
    var r := Ordering.SortBy(agents, ByRank());
    assert forall i, j :: 0 <= i < j < |r| ==> Rank(r[i].name) <= Rank(r[j].name) by {
      forall i, j | 0 <= i < j < |r| ensures Rank(r[i].name) <= Rank(r[j].name) {
        assert ByRank()(r[i], r[j]);
      }
    }
    r
  }

  /**
   * The re-sorted list holds the same agents, ranks never decrease along it, and agents of one
   * rank keep the order they were fetched in (their name order).
   */
  lemma RankSortCorrect(agents: seq<Agent>, z: Agent)
    ensures multiset(RankSort(agents)) == multiset(agents)
    ensures forall i, j :: 0 <= i < j < |RankSort(agents)| ==>
              Rank(RankSort(agents)[i].name) <= Rank(RankSort(agents)[j].name)
    ensures Ordering.TiedWith(RankSort(agents), z, ByRank()) == Ordering.TiedWith(agents, z, ByRank())
  {
    ByRankPreorder();
    Ordering.SortPermutes(agents, ByRank());
    Ordering.SortSorted(agents, ByRank());
    Ordering.SortStable(agents, z, ByRank());
    var r := RankSort(agents);
    forall i, j | 0 <= i < j < |r| ensures Rank(r[i].name) <= Rank(r[j].name) {
      assert ByRank()(r[i], r[j]);
    }
  }

  /** Tied means equal rank. */
  lemma TiedIsSameRank(a: Agent, b: Agent)
    ensures Ordering.Tied(ByRank(), a, b) <==> Rank(a.name) == Rank(b.name)
  {
  }

  /** What the query gives back: rows (possibly `null`), or an error. */
  datatype Fetched = Rows(data: Option<seq<Agent>>) | Failed(error: string)

  /** The selector's state: the agents shown and whether they are still loading. */
  class Selector {
    var agents: seq<Agent>
    var isLoading: bool

    constructor ()
      ensures agents == [] && isLoading
    {
      agents := [];
      isLoading := true;
    }

    /** `fetchAgents` once the query has answered (lines 30-40). */
    method FetchAgents(fetched: Fetched)
      modifies this
      ensures !isLoading
      ensures fetched.Failed? ==> agents == old(agents)
      ensures fetched.Rows? ==> agents == RankSort(fetched.data.GetOr([]))
    {
      if fetched.Rows? {
        agents := RankSort(fetched.data.GetOr([]));
      }
      isLoading := false;
    }
  }
}
