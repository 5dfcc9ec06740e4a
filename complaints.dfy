/** The complaints page (app/keluhanPage.js): the fetched list, the
    "explore"/"mine" tab filter, deletion by id, the author label and the
    per-item menu. */
module Complaints {
  import opened Js
  import opened Api
  import opened Seqs

  /** A complaint id: a primitive JSON value other than null and undefined
      (the report endpoint's ids are numbers or strings, and the list's
      `item.id.toString()` key would throw on a nullish one), so that `===` on
      ids is value equality and an id is strictly equal to itself. */
  type Id = v: Value | Primitive(v) && !Nullish(v) witness Num(0)

  /** One complaint as the report endpoint returns it. `author` is the joined
      `user` object; the owner field is kept as a JSON value because it is
      compared with `===` against the signed-in user's id. The creation date
      is only formatted for display. */
  datatype Complaint = Complaint(
    id: Id, idUser: Value, keluhanText: Value, nomorBus: Value, rute: Value, author: Value)

  /** `user?.data?.user?.uid`: the signed-in user's id, undefined when any
      step is missing. */
  function UserIdOf(user: Value): (r: Value)
    ensures Nullish(user) ==> r == Undefined
    ensures Path(user, ["data", "user", "uid"]).Ok? ==> r == Path(user, ["data", "user", "uid"]).value
    ensures Path(user, ["data", "user", "uid"]).TypeError? ==> r == Undefined
  {
    PathAgreesWithOptPath(user, ["data", "user", "uid"]);
    OptPathOfUndefined(["user", "uid"]);
    OptPath(user, ["data", "user", "uid"])
  }

  /** `k.id_user === userId`. */
  function OwnedBy(userId: Value): (owned: Complaint -> bool) {
    (k: Complaint) => StrictEq(k.idUser, userId)
  }

  /** `item.id !== id`. */
  function IdIsNot(id: Id): (kept: Complaint -> bool) {
    (k: Complaint) => !StrictEq(k.id, id)
  }

  /** What the tab filter shows: the whole list on "explore", the user's own
      complaints on any other tab. */
  function TabView(activeTab: string, keluhanList: seq<Complaint>, userId: Value): (r: seq<Complaint>)
    ensures |r| <= |keluhanList|
  {
    if activeTab == "explore" then keluhanList else Filter(OwnedBy(userId), keluhanList)
  }

  /** The "explore" tab shows the list unchanged; the "mine" tab shows exactly
      the complaints whose owner is strictly equal to the user id, in their
      original order and with their multiplicities, and nothing at all when
      the user id is an object or array (it comes from a different response
      than the list, so it is never the same reference as an owner field). */
  lemma TabViewSpec(keluhanList: seq<Complaint>, userId: Value)
    ensures TabView("explore", keluhanList, userId) == keluhanList
    ensures forall k :: k in TabView("mine", keluhanList, userId) <==>
      k in keluhanList && StrictEq(k.idUser, userId)
    ensures IsSubsequence(TabView("mine", keluhanList, userId), keluhanList)
    ensures forall k ::
              multiset(TabView("mine", keluhanList, userId))[k] ==
              (if StrictEq(k.idUser, userId) then multiset(keluhanList)[k] else 0)
    ensures !Primitive(userId) ==> TabView("mine", keluhanList, userId) == []
  {
    forall k
      ensures k in Filter(OwnedBy(userId), keluhanList) <==> k in keluhanList && StrictEq(k.idUser, userId)
      ensures multiset(Filter(OwnedBy(userId), keluhanList))[k] ==
        (if StrictEq(k.idUser, userId) then multiset(keluhanList)[k] else 0)
    {
      FilterMembers(OwnedBy(userId), keluhanList, k);
      FilterMultiset(OwnedBy(userId), keluhanList, k);
      assert OwnedBy(userId)(k) == StrictEq(k.idUser, userId);
    }
    FilterIsSubsequence(OwnedBy(userId), keluhanList);
    FilterAllSatisfy(OwnedBy(userId), keluhanList);
  }

  /** The list after a successful delete of `id`. */
  function WithoutId(keluhanList: seq<Complaint>, id: Id): (r: seq<Complaint>)
    ensures |r| <= |keluhanList|
  {
    Filter(IdIsNot(id), keluhanList)
  }

  /** Deleting removes exactly the complaints whose id is strictly equal to
      `id`, keeps the rest in order and with their multiplicities, and changes
      nothing when no complaint carries that id. */
  lemma WithoutIdSpec(keluhanList: seq<Complaint>, id: Id)
    ensures forall k :: k in WithoutId(keluhanList, id) <==> k in keluhanList && k.id != id
    ensures forall i :: 0 <= i < |WithoutId(keluhanList, id)| ==> WithoutId(keluhanList, id)[i].id != id
    ensures forall k ::
              multiset(WithoutId(keluhanList, id))[k] ==
              (if k.id == id then 0 else multiset(keluhanList)[k])
    ensures IsSubsequence(WithoutId(keluhanList, id), keluhanList)
    ensures (forall i :: 0 <= i < |keluhanList| ==> keluhanList[i].id != id) ==>
      WithoutId(keluhanList, id) == keluhanList
  {
    forall k
      ensures k in Filter(IdIsNot(id), keluhanList) <==> k in keluhanList && k.id != id
      ensures multiset(Filter(IdIsNot(id), keluhanList))[k] ==
        (if k.id == id then 0 else multiset(keluhanList)[k])
    {
      FilterMembers(IdIsNot(id), keluhanList, k);
      FilterMultiset(IdIsNot(id), keluhanList, k);
      assert IdIsNot(id)(k) == (k.id != id);
    }
    FilterAllSatisfy(IdIsNot(id), keluhanList);
    FilterIsSubsequence(IdIsNot(id), keluhanList);
    if forall i :: 0 <= i < |keluhanList| ==> keluhanList[i].id != id {
      FilterKeepsAll(IdIsNot(id), keluhanList);
    }
  }

  /** `item.id_user === userId`. With no signed-in user (`userId` undefined) a
      complaint without an owner field counts as one's own. */
  predicate IsMine(item: Complaint, userId: Value) {
    StrictEq(item.idUser, userId)
  }

  /** The author label: "Anda" on one's own complaints, else the author's
      email when it is truthy, else "Anonim". */
  function DisplayName(item: Complaint, userId: Value): (r: Value)
    ensures IsMine(item, userId) ==> r == Str("Anda")
    ensures !IsMine(item, userId) && Truthy(OptMember(item.author, "email")) ==> r == OptMember(item.author, "email")
    ensures !IsMine(item, userId) && !Truthy(OptMember(item.author, "email")) ==> r == Str("Anonim")
    ensures Truthy(r)
  {
    if IsMine(item, userId) then Str("Anda")
    else if Truthy(OptMember(item.author, "email")) then Prop(item.author, "email")
    else Str("Anonim")
  }

  /** The three-dot button appears exactly on one's own complaints. */
  predicate MenuButtonShown(item: Complaint, userId: Value) {
    IsMine(item, userId)
  }

  /** The delete menu opens under the item whose id equals `menuVisibleId`. */
  predicate MenuOpenFor(menuVisibleId: Value, item: Complaint) {
    StrictEq(menuVisibleId, item.id)
  }

  /** Pressing an item's three-dot button: close when that item's menu is the
      open one, otherwise open it. */
  function ToggleMenu(menuVisibleId: Value, itemId: Id): (r: Value)
    ensures StrictEq(menuVisibleId, itemId) ==> r == Null
    ensures !StrictEq(menuVisibleId, itemId) ==> r == itemId
  {
    if StrictEq(menuVisibleId, itemId) then Null else itemId
  }

  /** No menu is open while `menuVisibleId` is null; a press flips the pressed
      item's menu, leaves at most that item's menu open, and two presses from a
      closed menu, or from the item's own open menu, return to where they
      started. */
  lemma ToggleMenuSpec(m: Value, item: Complaint)
    ensures !MenuOpenFor(Null, item)
    ensures MenuOpenFor(ToggleMenu(m, item.id), item) <==> !MenuOpenFor(m, item)
    ensures ToggleMenu(m, item.id) == Null || ToggleMenu(m, item.id) == item.id
    ensures forall other: Complaint :: other.id != item.id ==> !MenuOpenFor(ToggleMenu(m, item.id), other)
    ensures m == Null || m == item.id ==> ToggleMenu(ToggleMenu(m, item.id), item.id) == m
  {
  }

  /** A user who is signed in never sees an owner-less complaint as their own,
      nor a menu button on one. */
  lemma SignedInOwnership(item: Complaint, user: Value)
    requires Truthy(UserIdOf(user))
    ensures IsMine(item, UserIdOf(user)) ==> Truthy(item.idUser)
    ensures MenuButtonShown(item, UserIdOf(user)) ==> Truthy(item.idUser)
    ensures IsMine(item, UserIdOf(user)) ==> DisplayName(item, UserIdOf(user)) == Str("Anda")
  {
  }

  /** The page's state. */
  class Page {
    var keluhanList: seq<Complaint>
    var filteredList: seq<Complaint>
    var activeTab: string
    var menuVisibleId: Value
    var loading: bool

    constructor ()
      ensures keluhanList == [] && filteredList == [] && activeTab == "explore"
      ensures menuVisibleId == Null && loading
    {
      keluhanList := [];
      filteredList := [];
      activeTab := "explore";
      menuVisibleId := Null;
      loading := true;
    }

    /** getKeluhan with the given outcome of the request: on success both lists
        become the response body, on failure both stay; loading ends false. */
    method GetKeluhan(resp: Fetch<seq<Complaint>>)
      modifies this
      ensures resp.Resolved? ==> keluhanList == resp.body && filteredList == resp.body
      ensures resp.Rejected? ==> keluhanList == old(keluhanList) && filteredList == old(filteredList)
      ensures !loading
      ensures activeTab == old(activeTab) && menuVisibleId == old(menuVisibleId)
    {
      loading := true;
      if resp.Resolved? {
        keluhanList := resp.body;
        filteredList := resp.body;
      }
      loading := false;
    }

    /** The effect on `[activeTab, keluhanList, userId]`: skipped without a
        user id, otherwise the tab's view of the list. */
    method ApplyTabFilter(userId: Value)
      modifies this
      ensures Truthy(userId) ==> filteredList == TabView(activeTab, keluhanList, userId)
      ensures !Truthy(userId) ==> filteredList == old(filteredList)
      ensures keluhanList == old(keluhanList) && activeTab == old(activeTab)
      ensures menuVisibleId == old(menuVisibleId) && loading == old(loading)
    {
      if !Truthy(userId) {
        return;
      }
      if activeTab == "explore" {
        filteredList := keluhanList;
      } else {
        filteredList := Filter(OwnedBy(userId), keluhanList);
      }
    }

    /** handleDelete with the given outcome of the delete request: on success
        the complaint leaves the list and the menu closes; on failure nothing
        changes. */
    method HandleDelete(id: Id, resp: Fetch<Value>)
      modifies this
      ensures resp.Resolved? ==> keluhanList == WithoutId(old(keluhanList), id) && menuVisibleId == Null
      ensures resp.Rejected? ==> keluhanList == old(keluhanList) && menuVisibleId == old(menuVisibleId)
      ensures filteredList == old(filteredList) && activeTab == old(activeTab) && loading == old(loading)
    {
      if resp.Rejected? {
        return;
      }
      keluhanList := Filter(IdIsNot(id), keluhanList);
      menuVisibleId := Null;
    }

    /** Pressing the "Jelajahi" (explore) or "Keluhan Saya" (mine) toggle. */
    method SelectTab(mine: bool)
      modifies this
      ensures activeTab == (if mine then "mine" else "explore")
      ensures keluhanList == old(keluhanList) && filteredList == old(filteredList)
      ensures menuVisibleId == old(menuVisibleId) && loading == old(loading)
    {
      activeTab := if mine then "mine" else "explore";
    }

    /** Pressing an item's three-dot button, which is only rendered on the
        signed-in user's own complaints. */
    method PressMenu(item: Complaint, userId: Value)
      requires MenuButtonShown(item, userId)
      modifies this
      ensures menuVisibleId == ToggleMenu(old(menuVisibleId), item.id)
      ensures keluhanList == old(keluhanList) && filteredList == old(filteredList)
      ensures activeTab == old(activeTab) && loading == old(loading)
    {
      menuVisibleId := if StrictEq(menuVisibleId, item.id) then Null else item.id;
    }
  }
}
