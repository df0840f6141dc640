/** Status resolution: the `op_statuses` and `statuses` dictionaries the script
    builds before touching any card. */
module Statuses {

  import opened Wrappers
  import opened Records

  /** `op_statuses`: status name to self href, built in fetched order, so of two
      statuses with the same name the later one wins. */
  function StatusTable(fetched: seq<OpStatus>): (table: map<string, string>)
    ensures forall name :: name in table <==> exists i :: 0 <= i < |fetched| && fetched[i].name == name
  {
    if fetched == [] then map[]
    else
      var last := fetched[|fetched| - 1];
      StatusTable(fetched[..|fetched| - 1])[last.name := last.href]
  }

  /** A status name maps to the href of its last occurrence in the fetched list. */
  lemma {:induction false} LastFetchedWins(fetched: seq<OpStatus>, i: nat)
    requires i < |fetched|
    requires forall k :: i < k < |fetched| ==> fetched[k].name != fetched[i].name
    ensures fetched[i].name in StatusTable(fetched)
    ensures StatusTable(fetched)[fetched[i].name] == fetched[i].href
    decreases |fetched|
  {
    if i < |fetched| - 1 {
      LastFetchedWins(fetched[..|fetched| - 1], i);
    }
  }

  /** The two chained lookups for one list: title to canonical status name, then
      canonical name to href; either may fail. */
  function Resolve(list: WekanList, table: map<string, string>): (r: Result<string, Failure>)
    ensures r.Ok? <==> list.title in STATUS_MAP && STATUS_MAP[list.title] in table
    ensures r.Ok? ==> r.value == table[STATUS_MAP[list.title]]
    ensures list.title !in STATUS_MAP ==> r == Err(UnknownListTitle(list.title))
    ensures list.title in STATUS_MAP && STATUS_MAP[list.title] !in table ==>
              r == Err(UnknownStatusName(STATUS_MAP[list.title]))
  {
    if list.title !in STATUS_MAP then Err(UnknownListTitle(list.title))
    else if STATUS_MAP[list.title] !in table then Err(UnknownStatusName(STATUS_MAP[list.title]))
    else Ok(table[STATUS_MAP[list.title]])
  }

  /** `statuses`: list id to status href. The comprehension runs in list order and
      stops at the first list whose lookup fails; a later list with the same id
      overrides an earlier one. */
  function ListStatuses(lists: seq<WekanList>, table: map<string, string>): (r: Result<map<string, string>, Failure>)
    ensures r.Ok? <==> forall i :: 0 <= i < |lists| ==> Resolve(lists[i], table).Ok?
    ensures r.Ok? ==> forall id :: id in r.value <==> exists i :: 0 <= i < |lists| && lists[i].id == id
    ensures r.Err? ==> exists i :: 0 <= i < |lists| && Resolve(lists[i], table) == Err(r.error)
                          && forall k :: 0 <= k < i ==> Resolve(lists[k], table).Ok?
  {
    if lists == [] then Ok(map[])
    else
      var init := lists[..|lists| - 1];
      var last := lists[|lists| - 1];
      assert forall i :: 0 <= i < |init| ==> init[i] == lists[i];
      match ListStatuses(init, table)
      case Err(e) => Err(e)
      case Ok(m) =>
        match Resolve(last, table)
        case Err(e) => Err(e)
        case Ok(href) => Ok(m[last.id := href])
  }

  /** In a successful resolution a list id maps to the status of the last list
      carrying that id. */
  lemma {:induction false} LastListWins(lists: seq<WekanList>, table: map<string, string>, i: nat)
    requires ListStatuses(lists, table).Ok?
    requires i < |lists|
    requires forall k :: i < k < |lists| ==> lists[k].id != lists[i].id
    ensures lists[i].id in ListStatuses(lists, table).value
    ensures ListStatuses(lists, table).value[lists[i].id] == table[STATUS_MAP[lists[i].title]]
    decreases |lists|
  {
    var init := lists[..|lists| - 1];
    assert forall k :: 0 <= k < |init| ==> init[k] == lists[k];
    if i < |lists| - 1 {
      LastListWins(init, table, i);
    }
  }

  /** A board whose one list is titled "Doing" resolves it to the fetched
      "In progress" status. */
  lemma DoingResolvesToInProgress(id: string, table: map<string, string>)
    requires "In progress" in table
    ensures ListStatuses([WekanList(id, "Doing")], table) == Ok(map[id := table["In progress"]])
  {
    var lists := [WekanList(id, "Doing")];
    assert lists[..0] == [];
  }
}
