/*
 * GroupRepository (src/db/repositories/group.py) over the groups table.
 */
module GroupRepository {
  import opened Common
  import opened Db

  /** A groups row as INSERT creates it: the given title and language, the other columns at their defaults. */
  function NewGroup(title: Option<string>, language: string): GroupRow {
    GroupRow(title, false, language, true)
  }

  /** get: the row under the id, if any. */
  function Get(groups: map<int, GroupRow>, groupId: int): (g: Option<GroupRow>)
    ensures g.Some? <==> groupId in groups
    ensures g.Some? ==> g.value == groups[groupId]
  {
    if groupId in groups then Some(groups[groupId]) else None
  }

  /**
   * The table after upsert: a new id gets the title and the defaults; an
   * existing one keeps its title when the new one is NULL and is marked
   * active again.
   */
  function Upserted(groups: map<int, GroupRow>, groupId: int, title: Option<string>): (r: map<int, GroupRow>)
    ensures r.Keys == groups.Keys + {groupId}
    ensures forall k :: k in groups && k != groupId ==> r[k] == groups[k]
    ensures r[groupId].botActive
  {
    if groupId in groups then
      var row := groups[groupId];
      groups[groupId := row.(title := if title.Some? then title else row.title, botActive := true)]
    else groups[groupId := NewGroup(title, "en")]
  }

  /** What upsert promises: a NULL title never erases a stored one; the admin flag and language survive. */
  lemma UpsertedRow(groups: map<int, GroupRow>, groupId: int, title: Option<string>)
    ensures var row := Upserted(groups, groupId, title)[groupId];
      && (title.Some? ==> row.title == title)
      && (groupId in groups && title.None? ==> row.title == groups[groupId].title)
      && (groupId in groups ==> row.onlyAdmin == groups[groupId].onlyAdmin && row.language == groups[groupId].language)
      && (groupId !in groups ==> !row.onlyAdmin && row.language == "en")
  {
  }

  /** upsert: INSERT ... ON CONFLICT DO UPDATE ... RETURNING *. */
  method Upsert(db: Database, groupId: int, title: Option<string>) returns (g: GroupRow)
    modifies db`groups
    ensures db.groups == Upserted(old(db.groups), groupId, title)
    ensures Get(db.groups, groupId) == Some(g)
  {
    db.groups := Upserted(db.groups, groupId, title);
    g := db.groups[groupId];
  }

  /** is_only_admin: the flag, False for a missing group. */
  function IsOnlyAdmin(groups: map<int, GroupRow>, groupId: int): (b: bool)
    ensures b ==> groupId in groups
  {
    groupId in groups && groups[groupId].onlyAdmin
  }

  /** The table after toggle_only_admin's UPDATE: an existing group's flag is flipped. */
  function Toggled(groups: map<int, GroupRow>, groupId: int): (r: map<int, GroupRow>)
    ensures r.Keys == groups.Keys
    ensures forall k :: k in groups && k != groupId ==> r[k] == groups[k]
  {
    if groupId in groups then groups[groupId := groups[groupId].(onlyAdmin := !groups[groupId].onlyAdmin)] else groups
  }

  /**
   * toggle_only_admin: returns the new value of the flag, which is what
   * is_only_admin reads afterwards; a missing group gives False and is not
   * created.
   */
  method ToggleOnlyAdmin(db: Database, groupId: int) returns (newValue: bool)
    modifies db`groups
    ensures db.groups == Toggled(old(db.groups), groupId)
    ensures newValue == IsOnlyAdmin(db.groups, groupId)
    ensures groupId in old(db.groups) ==> newValue == !old(db.groups)[groupId].onlyAdmin
  {
    db.groups := Toggled(db.groups, groupId);
    newValue := if groupId in db.groups then db.groups[groupId].onlyAdmin else false;
  }

  /** Toggling twice restores the table. */
  lemma ToggleTwice(groups: map<int, GroupRow>, groupId: int)
    ensures Toggled(Toggled(groups, groupId), groupId) == groups
  {
    if groupId in groups {
      var twice := Toggled(Toggled(groups, groupId), groupId);
      assert twice[groupId] == groups[groupId];
      assert twice.Keys == groups.Keys;
    }
  }

  /** Toggling flips what is_only_admin reads for an existing group and leaves it False for a missing one. */
  lemma ToggleFlips(groups: map<int, GroupRow>, groupId: int)
    ensures groupId in groups ==> IsOnlyAdmin(Toggled(groups, groupId), groupId) == !IsOnlyAdmin(groups, groupId)
    ensures groupId !in groups ==> !IsOnlyAdmin(Toggled(groups, groupId), groupId)
  {
  }

  /** The table after set_language's INSERT ... ON CONFLICT: the language is set, creating the group if needed. */
  function WithLanguage(groups: map<int, GroupRow>, groupId: int, language: string): (r: map<int, GroupRow>)
    ensures r.Keys == groups.Keys + {groupId}
    ensures forall k :: k in groups && k != groupId ==> r[k] == groups[k]
  {
    if groupId in groups then groups[groupId := groups[groupId].(language := language)]
    else groups[groupId := NewGroup(None, language)]
  }

  /** set_language: inserts or updates. */
  method SetLanguage(db: Database, groupId: int, language: string)
    modifies db`groups
    ensures db.groups == WithLanguage(old(db.groups), groupId, language)
  {
    db.groups := WithLanguage(db.groups, groupId, language);
  }

  /** get_language: the stored language, or "en" for a missing group or an empty language. */
  function GetLanguage(groups: map<int, GroupRow>, groupId: int): (lang: string)
    ensures lang != ""
    ensures groupId !in groups ==> lang == "en"
  {
    if groupId in groups && groups[groupId].language != "" then groups[groupId].language else "en"
  }

  /** A non-empty language set on any group, existing or not, is what get_language reads back. */
  lemma LanguageRoundTrip(groups: map<int, GroupRow>, groupId: int, language: string, other: int)
    requires language != ""
    ensures GetLanguage(WithLanguage(groups, groupId, language), groupId) == language
    ensures other != groupId ==> GetLanguage(WithLanguage(groups, groupId, language), other) == GetLanguage(groups, other)
  {
  }

  /** The table after set_bot_active's UPDATE: only an existing group's flag changes. */
  function WithBotActive(groups: map<int, GroupRow>, groupId: int, active: bool): (r: map<int, GroupRow>)
    ensures r.Keys == groups.Keys
    ensures forall k :: k in groups && k != groupId ==> r[k] == groups[k]
    ensures groupId in groups ==> r[groupId] == groups[groupId].(botActive := active)
  {
    if groupId in groups then groups[groupId := groups[groupId].(botActive := active)] else groups
  }

  /** set_bot_active: affects existing rows only. */
  method SetBotActive(db: Database, groupId: int, active: bool)
    modifies db`groups
    ensures db.groups == WithBotActive(old(db.groups), groupId, active)
  {
    db.groups := WithBotActive(db.groups, groupId, active);
  }
}
