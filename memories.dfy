/**
 * The `agent_memory` table and the queries and rules of the memory tools
 * (supabase/functions/execute-tool/index.ts, cases memory_store … memory_consolidate).
 * Importance and decay are exact reals: the 0.5 and 0.1 steps of the source are exact there.
 */
module Memories {
  import opened Wrappers
  import opened Text
  import Ordering

  /** An `agent_memory` row; `decay` is absent until `memory_forget` first sets it. */
  datatype Memory = Memory(
    id: nat,
    agent: nat,
    content: string,
    memoryType: string,
    importance: real,
    category: Option<string>,
    decay: Option<real>,
    embedding: Option<seq<real>>,
    createdAt: nat)

  /** A row of the `match_memories` similarity search. */
  datatype Match = Match(id: nat, category: Option<string>, similarity: real, content: string)

  predicate UniqueIds(memories: seq<Memory>) {
    forall i, j :: 0 <= i < j < |memories| ==> memories[i].id != memories[j].id
  }

  predicate IdsBelow(memories: seq<Memory>, next: nat) {
    forall i :: 0 <= i < |memories| ==> memories[i].id < next
  }

  predicate TableValid(memories: seq<Memory>, next: nat) {
    UniqueIds(memories) && IdsBelow(memories, next)
  }

  /** `x || d` on a number: an absent value and `0` both give the default. */
  function OrNumber(x: Option<real>, d: real): (r: real)
    ensures x.None? || x.value == 0.0 ==> r == d
    ensures x.Some? && x.value != 0.0 ==> r == x.value
  {
    if x.None? || x.value == 0.0 then d else x.value
  }

  /** `n || d` on a count. */
  function OrCount(n: Option<nat>, d: nat): (r: nat)
    ensures n.None? || n.value == 0 ==> r == d
    ensures n.Some? && n.value != 0 ==> r == n.value
  {
    if n.None? || n.value == 0 then d else n.value
  }

  // ---- ranked queries: WHERE p ORDER BY importance DESC LIMIT k ----

  predicate ImportanceFirst(a: Memory, b: Memory) {
    a.importance >= b.importance
  }

  lemma ImportanceFirstPreorder()
    ensures Ordering.Preorder(ImportanceFirst)
  {
  }

  function Ranked(memories: seq<Memory>, p: Memory -> bool, k: nat): seq<Memory> {
    Ordering.Limit(Ordering.SortBy(Ordering.Filter(memories, p), ImportanceFirst), k)
  }

  /**
   * A ranked query returns at most `k` rows satisfying `p`, most important first, and leaves
   * out no row more important than one it returns; with at most `k` matches it returns all.
   */
  lemma RankedSpec(memories: seq<Memory>, p: Memory -> bool, k: nat)
    ensures var r := Ranked(memories, p, k);
            var sel := Ordering.Filter(memories, p);
            && |r| <= k
            && (forall i :: 0 <= i < |r| ==> r[i] in memories && p(r[i]))
            && Ordering.Sorted(r, ImportanceFirst)
            && (forall x, y :: x in r && y in sel && y !in r ==> ImportanceFirst(x, y))
            && (|sel| <= k ==> multiset(r) == multiset(sel))
            && (forall x, y :: x in r && y in memories && p(y) && y !in r ==> ImportanceFirst(x, y))
            && ((forall y :: y in memories && p(y) ==> y in r) || |r| == k)
  {
    var sel := Ordering.Filter(memories, p);
    var sorted := Ordering.SortBy(sel, ImportanceFirst);
    var r := Ranked(memories, p, k);
    ImportanceFirstPreorder();
    Ordering.TopK(sel, k, ImportanceFirst);
    Ordering.SortPermutes(sel, ImportanceFirst);
    forall i | 0 <= i < |r| ensures r[i] in memories && p(r[i]) {
      assert r[i] in multiset(sel);
      Ordering.FilterMembers(memories, p, r[i]);
    }
    forall x, y | x in r && y in memories && p(y) && y !in r ensures ImportanceFirst(x, y) {
      Ordering.FilterMembers(memories, p, y);
    }
    assert |sorted| == |sel| by {
      assert |multiset(sorted)| == |multiset(sel)|;
    }
    if |sel| <= k {
      forall y | y in memories && p(y) ensures y in r {
        Ordering.FilterMembers(memories, p, y);
        assert y in multiset(r);
      }
    }
  }

  /** `memory_recall`'s `WHERE`: this agent's rows, containing the query when one is given. */
  predicate Recalled(m: Memory, agent: nat, query: Option<string>) {
    m.agent == agent && (!Truthy(query) || ContainsIgnoringCase(m.content, query.value))
  }

  const DefaultRecallLimit := 5

  function RecallFilter(agent: nat, query: Option<string>): Memory -> bool {
    (m: Memory) => Recalled(m, agent, query)
  }

  function Recall(memories: seq<Memory>, agent: nat, query: Option<string>, limit: Option<nat>): (r: seq<Memory>)
    ensures |r| <= OrCount(limit, DefaultRecallLimit)
    ensures forall i :: 0 <= i < |r| ==> r[i] in memories && Recalled(r[i], agent, query)
  {
    RankedSpec(memories, RecallFilter(agent, query), OrCount(limit, DefaultRecallLimit));
    Ranked(memories, RecallFilter(agent, query), OrCount(limit, DefaultRecallLimit))
  }

  /**
   * `memory_recall` returns at most `limit` rows (5 when the limit is absent or 0), all of them
   * this agent's and containing the query, most important first; no matching row left out is
   * more important than one returned, and unless the limit is reached every match is returned.
   */
  lemma RecallSpec(memories: seq<Memory>, agent: nat, query: Option<string>, limit: Option<nat>)
    ensures var r := Recall(memories, agent, query, limit);
            var k := if limit.None? || limit.value == 0 then DefaultRecallLimit else limit.value;
            && |r| <= k
            && (forall i :: 0 <= i < |r| ==> r[i] in memories && r[i].agent == agent)
            && (Truthy(query) ==> forall i :: 0 <= i < |r| ==> ContainsIgnoringCase(r[i].content, query.value))
            && (forall i, j :: 0 <= i < j < |r| ==> r[i].importance >= r[j].importance)
            && (forall x, y :: x in r && y in memories && Recalled(y, agent, query) && y !in r ==> x.importance >= y.importance)
            && ((forall y :: y in memories && Recalled(y, agent, query) ==> y in r) || |r| == k)
  {
    var p := RecallFilter(agent, query);
    var k := OrCount(limit, DefaultRecallLimit);
    var r := Ranked(memories, p, k);
    RankedSpec(memories, p, k);
    assert forall y :: p(y) == Recalled(y, agent, query);
    forall x, y | x in r && y in memories && Recalled(y, agent, query) && y !in r
      ensures x.importance >= y.importance
    {
      assert ImportanceFirst(x, y);
    }
  }

  /** The keyword fallback of `memory_search`: agent, substring, and category when given. */
  predicate KeywordMatch(m: Memory, agent: nat, query: string, category: Option<string>) {
    m.agent == agent && ContainsIgnoringCase(m.content, query)
    && (!Truthy(category) || m.category == Some(category.value))
  }

  function KeywordFilter(agent: nat, query: string, category: Option<string>): Memory -> bool {
    (m: Memory) => KeywordMatch(m, agent, query, category)
  }

  function KeywordSearch(memories: seq<Memory>, agent: nat, query: string, category: Option<string>, limit: Option<nat>)
    : (r: seq<Memory>)
    ensures |r| <= OrCount(limit, DefaultRecallLimit)
    ensures forall i :: 0 <= i < |r| ==> r[i] in memories && KeywordMatch(r[i], agent, query, category)
  {
    RankedSpec(memories, KeywordFilter(agent, query, category), OrCount(limit, DefaultRecallLimit));
    Ranked(memories, KeywordFilter(agent, query, category), OrCount(limit, DefaultRecallLimit))
  }

  /**
   * The keyword fallback returns at most `limit` rows (5 when absent or 0) of this agent that
   * contain the query and, when one is given, have the category; most important first, with no
   * more important match left out, and every match unless the limit is reached.
   */
  lemma KeywordSearchSpec(memories: seq<Memory>, agent: nat, query: string, category: Option<string>, limit: Option<nat>)
    ensures var r := KeywordSearch(memories, agent, query, category, limit);
            var k := OrCount(limit, DefaultRecallLimit);
            && |r| <= k
            && (forall i :: 0 <= i < |r| ==>
                  r[i] in memories && r[i].agent == agent && ContainsIgnoringCase(r[i].content, query))
            && (Truthy(category) ==> forall i :: 0 <= i < |r| ==> r[i].category == category)
            && (forall i, j :: 0 <= i < j < |r| ==> r[i].importance >= r[j].importance)
            && (forall x, y :: x in r && y in memories && KeywordMatch(y, agent, query, category) && y !in r
                  ==> x.importance >= y.importance)
            && ((forall y :: y in memories && KeywordMatch(y, agent, query, category) ==> y in r) || |r| == k)
  {
    var p := KeywordFilter(agent, query, category);
    var k := OrCount(limit, DefaultRecallLimit);
    var r := Ranked(memories, p, k);
    RankedSpec(memories, p, k);
    assert forall y :: p(y) == KeywordMatch(y, agent, query, category);
    forall x, y | x in r && y in memories && KeywordMatch(y, agent, query, category) && y !in r
      ensures x.importance >= y.importance
    {
      assert ImportanceFirst(x, y);
    }
  }

  const DefaultDepth := 10

  /** The rows `memory_reflect` reflects on: the agent's, about the topic, at most `depth`. */
  function ReflectionSet(memories: seq<Memory>, agent: nat, topic: string, depth: Option<nat>): seq<Memory> {
    Ranked(memories, (m: Memory) => Recalled(m, agent, Some(topic)), OrCount(depth, DefaultDepth))
  }

  // ---- memory_forget ----

  /** `Math.max(0, (decay || 1.0) - 0.5)`. */
  function Decayed(decay: Option<real>): (r: real)
    ensures r >= 0.0
  {
    var d := OrNumber(decay, 1.0) - 0.5;
    if d > 0.0 then d else 0.0
  }

  /** The record is removed once its decay drops below 0.2. */
  predicate Forgotten(decay: real) {
    decay < 0.2
  }

  /**
   * One forget call removes a record exactly when its stored decay is set, non-zero and below
   * 0.7; otherwise the decay goes down by 0.5 (to no less than 0).
   */
  lemma ForgetRemovesIff(decay: Option<real>)
    ensures Forgotten(Decayed(decay)) <==> decay.Some? && decay.value != 0.0 && decay.value < 0.7
    ensures !Forgotten(Decayed(decay)) ==> Decayed(decay) == OrNumber(decay, 1.0) - 0.5
  {
  }

  /** From a fresh record (no decay, or 1.0), the first forget keeps it at 0.5, the second removes it. */
  lemma ForgetTwice(decay: Option<real>)
    requires decay.None? || decay == Some(1.0)
    ensures Decayed(decay) == 0.5 && !Forgotten(Decayed(decay))
    ensures Forgotten(Decayed(Some(Decayed(decay))))
  {
  }

  // ---- memory_consolidate ----

  /** `m.importance || 0.5`. */
  function Weight(m: Memory): real {
    OrNumber(Some(m.importance), 0.5)
  }

  /** `Math.max(...rows.map(m => m.importance || 0.5))`. */
  function MaxWeight(rows: seq<Memory>): (r: real)
    requires rows != []
    ensures forall i :: 0 <= i < |rows| ==> Weight(rows[i]) <= r
    ensures exists i :: 0 <= i < |rows| && Weight(rows[i]) == r
  {
    if |rows| == 1 then Weight(rows[0])
    else
      var rest := MaxWeight(rows[1..]);
      assert forall i :: 1 <= i < |rows| ==> rows[i] == rows[1..][i - 1];
      if Weight(rows[0]) >= rest then Weight(rows[0]) else rest
  }

  /** `Math.min(1.0, max + 0.1)`. */
  function ConsolidatedImportance(rows: seq<Memory>): real
    requires rows != []
  {
    var m := MaxWeight(rows) + 0.1;
    if m < 1.0 then m else 1.0
  }

  /**
   * The merged record is at most 1.0 important and at least 0.1 above every merged record,
   * unless capped at 1.0.
   */
  lemma ConsolidatedImportanceBounds(rows: seq<Memory>)
    requires rows != []
    ensures ConsolidatedImportance(rows) <= 1.0
    ensures forall i :: 0 <= i < |rows| ==>
              ConsolidatedImportance(rows) >= Weight(rows[i]) + 0.1 || ConsolidatedImportance(rows) == 1.0
    ensures exists i :: 0 <= i < |rows| &&
              (ConsolidatedImportance(rows) == Weight(rows[i]) + 0.1 || ConsolidatedImportance(rows) == 1.0)
  {
  }

  /** The category of the first fetched record, or `semantic`. */
  function ConsolidatedCategory(rows: seq<Memory>): string
    requires rows != []
  {
    OrElse(rows[0].category, "semantic")
  }

  function Contents(rows: seq<Memory>): (r: seq<string>)
    ensures |r| == |rows| && forall i :: 0 <= i < |rows| ==> r[i] == rows[i].content
  {
    seq(|rows|, i requires 0 <= i < |rows| => rows[i].content)
  }

  /**
   * The merged text: the caller's summary, else the model's synthesis, else the contents
   * joined by ` | ` after `[Consolidated] `.
   */
  function ConsolidatedContent(summary: Option<string>, synthesis: Option<string>, rows: seq<Memory>): (r: string)
    ensures Truthy(summary) ==> r == summary.value
    ensures !Truthy(summary) && Truthy(synthesis) ==> r == synthesis.value
    ensures !Truthy(summary) && !Truthy(synthesis) ==> "[Consolidated] " <= r
  {
    if Truthy(summary) then summary.value
    else if Truthy(synthesis) then synthesis.value
    else
      var body := Join(Contents(rows), " | ");
      assert "[Consolidated] " <= "[Consolidated] " + body;
      "[Consolidated] " + body
  }

  /** The rows `memory_consolidate` fetches: the listed ids that belong to the agent. */
  function ConsolidationSet(memories: seq<Memory>, ids: seq<nat>, agent: nat): (r: seq<Memory>)
    ensures |r| <= |memories|
    ensures forall i :: 0 <= i < |r| ==> r[i] in memories && r[i].id in ids && r[i].agent == agent
    ensures forall m :: m in memories && m.id in ids && m.agent == agent ==> m in r
  {
    var p := (m: Memory) => m.id in ids && m.agent == agent;
    var r := Ordering.Filter(memories, p);
    assert forall m :: m in memories && m.id in ids && m.agent == agent ==> m in r by {
      forall m | m in memories && m.id in ids && m.agent == agent ensures m in r {
        Ordering.FilterMembers(memories, p, m);
      }
    }
    assert forall i :: 0 <= i < |r| ==> r[i] in memories by {
      forall i | 0 <= i < |r| ensures r[i] in memories {
        assert r[i] in multiset(r);
      }
    }
    r
  }

  /** `DELETE ... WHERE id IN ids`, with no test on the agent. */
  function RemoveIds(memories: seq<Memory>, ids: seq<nat>): (r: seq<Memory>)
    ensures |r| <= |memories|
    ensures forall i :: 0 <= i < |r| ==> r[i] in memories && r[i].id !in ids
  {
    var p := (m: Memory) => m.id !in ids;
    var r := Ordering.Filter(memories, p);
    assert forall i :: 0 <= i < |r| ==> r[i] in memories by {
      forall i | 0 <= i < |r| ensures r[i] in memories {
        assert r[i] in multiset(r);
      }
    }
    r
  }

  /** The delete keeps exactly the rows whose ids were not listed, whoever owns them. */
  lemma RemoveIdsSpec(memories: seq<Memory>, ids: seq<nat>, m: Memory)
    ensures m in RemoveIds(memories, ids) <==> m in memories && m.id !in ids
  {
    Ordering.FilterMembers(memories, (m: Memory) => m.id !in ids, m);
  }

  /** A listed row of another agent is not merged, yet the delete removes it. */
  lemma ConsolidateDropsOthers(memories: seq<Memory>, ids: seq<nat>, agent: nat, m: Memory)
    requires m in memories && m.id in ids && m.agent != agent
    ensures m !in ConsolidationSet(memories, ids, agent)
    ensures m !in RemoveIds(memories, ids)
  {
    Ordering.FilterMembers(memories, (m: Memory) => m.id in ids && m.agent == agent, m);
    RemoveIdsSpec(memories, ids, m);
  }

  /** `UPDATE ... SET decay_factor, importance WHERE id = id` of `memory_forget`. */
  function SetDecay(memories: seq<Memory>, id: nat, decay: real): (r: seq<Memory>)
    ensures |r| == |memories|
    ensures forall i :: 0 <= i < |memories| ==>
              r[i] == if memories[i].id == id
                      then memories[i].(decay := Some(decay), importance := if Forgotten(decay) then 0.0 else memories[i].importance)
                      else memories[i]
  {
    seq(|memories|, i requires 0 <= i < |memories| =>
      if memories[i].id == id
      then memories[i].(decay := Some(decay), importance := if Forgotten(decay) then 0.0 else memories[i].importance)
      else memories[i])
  }

  /** The row of `memory_forget`'s lookup: that id, and that agent's. */
  function FindOwned(memories: seq<Memory>, id: nat, agent: nat): (r: Option<Memory>)
    ensures r.Some? ==> r.value in memories && r.value.id == id && r.value.agent == agent
    ensures r.None? ==> forall i :: 0 <= i < |memories| ==> !(memories[i].id == id && memories[i].agent == agent)
    decreases |memories|
  {
    if memories == [] then None
    else if memories[0].id == id && memories[0].agent == agent then Some(memories[0])
    else
      var r := FindOwned(memories[1..], id, agent);
      assert forall i :: 1 <= i < |memories| ==> memories[i] == memories[1..][i - 1];
      r
  }

  /** Appending a row whose id is fresh keeps the table valid. */
  lemma AppendKeepsValid(memories: seq<Memory>, next: nat, m: Memory)
    requires TableValid(memories, next) && m.id == next
    ensures TableValid(memories + [m], next + 1)
  {
  }

  /** The forget update keeps every id, so it keeps the table valid. */
  lemma SetDecayKeepsValid(memories: seq<Memory>, next: nat, id: nat, decay: real)
    requires TableValid(memories, next)
    ensures TableValid(SetDecay(memories, id, decay), next)
  {
  }

  lemma RemoveKeepsValid(memories: seq<Memory>, next: nat, ids: seq<nat>)
    requires TableValid(memories, next)
    ensures TableValid(RemoveIds(memories, ids), next)
  {
    FilterKeepsValid(memories, next, (m: Memory) => m.id !in ids);
  }

  lemma {:induction false} FilterKeepsValid(memories: seq<Memory>, next: nat, p: Memory -> bool)
    requires TableValid(memories, next)
    ensures TableValid(Ordering.Filter(memories, p), next)
    decreases |memories|
  {
    if memories != [] {
      var m := memories[0];
      var rest := memories[1..];
      TailValid(memories, next);
      FilterKeepsValid(rest, next, p);
      var f := Ordering.Filter(rest, p);
      if p(m) {
        forall i | 0 <= i < |f| ensures f[i].id != m.id {
          Ordering.FilterMembers(rest, p, f[i]);
          var j :| 0 <= j < |rest| && rest[j] == f[i];
          assert rest[j] == memories[j + 1];
        }
        ConsValid(m, f, next);
        assert Ordering.Filter(memories, p) == [m] + f;
      } else {
        assert Ordering.Filter(memories, p) == f;
      }
    }
  }

  lemma TailValid(memories: seq<Memory>, next: nat)
    requires TableValid(memories, next) && memories != []
    ensures TableValid(memories[1..], next)
  {
    var rest := memories[1..];
    assert forall i :: 0 <= i < |rest| ==> rest[i] == memories[i + 1];
  }

  lemma ConsValid(m: Memory, f: seq<Memory>, next: nat)
    requires TableValid(f, next) && m.id < next
    requires forall i :: 0 <= i < |f| ==> f[i].id != m.id
    ensures TableValid([m] + f, next)
  {
    var r := [m] + f;
    forall i, j | 0 <= i < j < |r| ensures r[i].id != r[j].id {
      assert r[j] == f[j - 1];
      if i > 0 {
        assert r[i] == f[i - 1];
      }
    }
  }

  // ---- reply texts ----

  function StoredText(category: string, memoryType: string, content: string): string {
    "Successfully stored " + category + " memory (" + memoryType + "): \"" + Preview(content, 50) + "\""
  }

  function RecallEntry(n: nat, m: Memory): string {
    NatText(n) + ". [" + m.memoryType + "] (importance: " + NumberText(m.importance) + "): " + m.content
  }

  function RecallText(rows: seq<Memory>): string {
    if rows == [] then "No memories found matching your query."
    else "[Retrieved Memories]\n" + Join(Numbered(rows, RecallEntry, 0), "\n")
  }

  function MatchEntry(n: nat, m: Match): string {
    NatText(n) + ". [" + ShownNull(m.category) + "] (similarity: " + FixedText(m.similarity * 100.0, 1)
    + "%)\n   " + m.content
  }

  function SemanticText(rows: seq<Match>): string {
    "[Semantic Memory Search Results]\n" + Join(Numbered(rows, MatchEntry, 0), "\n\n")
  }

  function KeywordEntry(n: nat, m: Memory): string {
    NatText(n) + ". [" + ShownNull(m.category) + "] (importance: " + NumberText(m.importance) + ")\n   "
    + m.content
  }

  function KeywordText(query: string, rows: seq<Memory>): string {
    if rows == [] then "No memories found matching \"" + query + "\""
    else "[Keyword Memory Search Results]\n" + Join(Numbered(rows, KeywordEntry, 0), "\n\n")
  }

  function ReflectionEntry(n: nat, m: Memory): string {
    NatText(n) + ". [" + ShownNull(m.category) + "] " + m.content
  }

  function NothingToReflect(topic: string): string {
    "No memories found about \"" + topic + "\" to reflect on."
  }

  function ReflectionText(topic: string, count: nat, reflection: string): string {
    "[Memory Reflection on \"" + topic + "\"]\n\nBased on " + NatText(count) + " memories:\n\n"
    + reflection + "\n\n(This reflection has been stored as a semantic memory)"
  }

  function ReflectionFallback(topic: string, rows: seq<Memory>): string {
    "[Memories about \"" + topic + "\" for reflection]\n\n" + Join(Numbered(rows, ReflectionEntry, 0), "\n\n")
  }

  function ReflectionContent(topic: string, reflection: string): string {
    "[Reflection on \"" + topic + "\"] " + reflection
  }

  function ForgottenText(content: string, reason: Option<string>): string {
    "[Memory Forgotten]\nMemory \"" + Take(content, 50) + "...\" has been removed.\nReason: "
    + OrElse(reason, "Not specified")
  }

  function DecayedText(content: string, decay: real, reason: Option<string>): string {
    "[Memory Decayed]\nMemory \"" + Take(content, 50) + "...\" decay factor reduced to " + FixedText(decay, 2)
    + ".\nReason: " + OrElse(reason, "Not specified") + "\n\nAnother forget call will remove it completely."
  }

  function ConsolidatedText(count: nat, content: string, id: nat, importance: real): string {
    "[Memories Consolidated]\n" + NatText(count) + " memories merged into:\n\n\"" + Preview(content, 200)
    + "\"\n\nNew memory ID: " + NatText(id) + "\nImportance: " + NumberText(importance)
  }
}
