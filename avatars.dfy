/**
 * The avatar table of src/lib/avatarMap.ts: which portrait and which chat picture each agent
 * shows, looked up by the agent's name without regard to case.
 */
module Avatars {
  import opened Wrappers
  import opened Text

  /** The eight image assets: each agent's portrait and chat picture, named after their files. */
  datatype Asset =
    | DehtyarAvatar | DehtyarChat
    | DoharAvatar | DoharChat
    | DiyarAvatar | DiyarChat
    | DehtoAvatar | DehtoChat

  /** The agent whose files an asset comes from. */
  function Owner(a: Asset): string {
    match a
    case DehtyarAvatar => "dehtyar"
    case DehtyarChat => "dehtyar"
    case DoharAvatar => "dohar"
    case DoharChat => "dohar"
    case DiyarAvatar => "diyar"
    case DiyarChat => "diyar"
    case DehtoAvatar => "dehto"
    case DehtoChat => "dehto"
  }

  /** The asset is a chat picture (a `-chat` file). */
  predicate IsChat(a: Asset) {
    a.DehtyarChat? || a.DoharChat? || a.DiyarChat? || a.DehtoChat?
  }

  datatype Entry = Entry(avatar: Asset, chatAvatar: Asset)

  /** `avatarMap` (lines 12-29). */
  const Table: map<string, Entry> := map[
    "dohar" := Entry(DehtyarAvatar, DehtyarChat),
    "dehtyar" := Entry(DoharChat, DoharAvatar),
    "diyar" := Entry(DiyarAvatar, DiyarChat),
    "dehto" := Entry(DehtoChat, DehtoAvatar)
  ]

  /** What `getAgentAvatars` gives back; `None` is `null`. */
  datatype Avatars = Avatars(avatar: Option<Asset>, chatAvatar: Option<Asset>)

  /** `getAgentAvatars` (lines 31-39): the entry under the lower-cased name, or nulls. */
  function GetAgentAvatars(agentName: string): (r: Avatars)
    ensures r.avatar.Some? <==> r.chatAvatar.Some?
    ensures r.avatar.Some? <==> Lower(agentName) in Table
  {
    var key := Lower(agentName);
    if key in Table then Avatars(Some(Table[key].avatar), Some(Table[key].chatAvatar))
    else Avatars(None, None)
  }

  /** The table is keyed by exactly the four agents. */
  lemma TableKeys()
    ensures Table.Keys == {"dohar", "dehtyar", "diyar", "dehto"}
  {
  }

  /** The agents' display names, capitalised as stored, find their entries. */
  lemma DoharFound()
    ensures GetAgentAvatars("Dohar") == Avatars(Some(DehtyarAvatar), Some(DehtyarChat))
  {
    assert Lower("Dohar") == "dohar";
  }

  lemma DehtyarFound()
    ensures GetAgentAvatars("Dehtyar") == Avatars(Some(DoharChat), Some(DoharAvatar))
  {
    assert Lower("Dehtyar") == "dehtyar";
  }

  lemma DiyarFound()
    ensures GetAgentAvatars("Diyar") == Avatars(Some(DiyarAvatar), Some(DiyarChat))
  {
    assert Lower("Diyar") == "diyar";
  }

  lemma DehtoFound()
    ensures GetAgentAvatars("Dehto") == Avatars(Some(DehtoChat), Some(DehtoAvatar))
  {
    assert Lower("Dehto") == "dehto";
  }

  /** The lookup ignores case: two names that agree once lower-cased get the same pictures. */
  lemma CaseIgnored(a: string, b: string)
    requires Lower(a) == Lower(b)
    ensures GetAgentAvatars(a) == GetAgentAvatars(b)
  {
  }

  /** A table key, written in any case, finds its entry; any other name finds nothing. */
  lemma LookupMeetsTable(agentName: string)
    ensures Lower(agentName) in Table ==>
              GetAgentAvatars(agentName) == Avatars(Some(Table[Lower(agentName)].avatar),
                                                    Some(Table[Lower(agentName)].chatAvatar))
    ensures Lower(agentName) !in Table ==> GetAgentAvatars(agentName) == Avatars(None, None)
  {
  }

  /** The agent whose pictures a table key shows: Dohar and Dehtyar show each other's. */
  function CrossedOwner(k: string): string {
    if k == "dohar" then "dehtyar" else if k == "dehtyar" then "dohar" else k
  }

  /** Dehtyar and Dehto show their chat picture as portrait and their portrait in the chat. */
  predicate Swapped(k: string) {
    k == "dehtyar" || k == "dehto"
  }

  /**
   * The table is deliberately crossed: every entry's two pictures come from one agent, the
   * crossed owner of its key, and they are a portrait and a chat picture, in swapped roles
   * exactly for Dehtyar and Dehto.
   */
  lemma TableCrossed(k: string)
    requires k in Table
    ensures Owner(Table[k].avatar) == CrossedOwner(k) && Owner(Table[k].chatAvatar) == CrossedOwner(k)
    ensures IsChat(Table[k].avatar) == Swapped(k) && IsChat(Table[k].chatAvatar) == !Swapped(k)
  {
    TableKeys();
  }

  /** The pictures any name gets, in terms of the crossing. */
  lemma AvatarsOfName(agentName: string)
    requires Lower(agentName) in Table
    ensures var r := GetAgentAvatars(agentName);
            && r.avatar.Some? && r.chatAvatar.Some?
            && Owner(r.avatar.value) == CrossedOwner(Lower(agentName))
            && Owner(r.chatAvatar.value) == CrossedOwner(Lower(agentName))
            && IsChat(r.avatar.value) == Swapped(Lower(agentName))
            && IsChat(r.chatAvatar.value) == !Swapped(Lower(agentName))
  {
    TableCrossed(Lower(agentName));
  }
}
