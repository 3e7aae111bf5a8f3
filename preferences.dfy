/** The `settings` table (main.py:62-66) as read by `fetch_settings` and
    merged by `update_settings` (main.py:91-115). */
module Preferences {
  import opened Wrappers

  /** A row of the `settings` table: `show_logo` is stored as an INTEGER. */
  datatype SettingsRow = SettingsRow(showLogo: int, lim: int)

  /** The dictionary `fetch_settings` returns. */
  datatype Settings = Settings(showLogo: bool, limit: int)

  const DEFAULT_SETTINGS := Settings(true, 5)

  /** The fields an `update_settings` call supplies; None stands for an omitted keyword. */
  datatype Patch = Patch(showLogo: Option<bool>, limit: Option<int>)

  /** `fetch_settings`: the user's row read back (`bool(row[0])`), or the
      defaults `show_logo=True, limit=5` when the user has no row. */
  function FetchSettings(rows: map<int, SettingsRow>, user: int): (s: Settings)
    ensures user !in rows ==> s == DEFAULT_SETTINGS
    ensures user in rows ==> s.limit == rows[user].lim && (s.showLogo <==> rows[user].showLogo != 0)
  {
    if user in rows then Settings(rows[user].showLogo != 0, rows[user].lim) else DEFAULT_SETTINGS
  }

  /** The merge expressions of `update_settings`: each supplied field wins,
      each omitted one keeps its current value. */
  function Merge(current: Settings, patch: Patch): Settings
  {
    Settings(patch.showLogo.GetOr(current.showLogo), patch.limit.GetOr(current.limit))
  }

  /** The row `update_settings` writes: `int(show_logo)` and the limit. */
  function RowOf(s: Settings): SettingsRow
  {
    SettingsRow(if s.showLogo then 1 else 0, s.limit)
  }

  /** The range of an SQLite INTEGER: binding a Python int outside it raises
      OverflowError, so the write fails and the table is unchanged. */
  const INT64_MIN := -0x8000_0000_0000_0000
  const INT64_MAX := 0x7FFF_FFFF_FFFF_FFFF

  predicate FitsInteger(n: int)
  {
    INT64_MIN <= n <= INT64_MAX
  }

  /** Every stored row holds values SQLite could have stored. */
  predicate RowsFit(rows: map<int, SettingsRow>)
  {
    forall u | u in rows :: FitsInteger(rows[u].showLogo) && FitsInteger(rows[u].lim)
  }

  /** `update_settings(user, patch)` gets its row written: the merged limit
      (`int(show_logo)` is always 0 or 1) fits an SQLite INTEGER. */
  predicate Writable(rows: map<int, SettingsRow>, user: int, patch: Patch)
  {
    FitsInteger(Merge(FetchSettings(rows, user), patch).limit)
  }

  /** The settings table after `update_settings(user, patch)`. */
  function UpdatedRows(rows: map<int, SettingsRow>, user: int, patch: Patch): map<int, SettingsRow>
  {
    rows[user := RowOf(Merge(FetchSettings(rows, user), patch))]
  }

  /** Reading back after an update gives the supplied fields and, for every
      omitted field, the value it had before (stored or default); the other
      users' settings do not change. */
  lemma {:induction false} FetchAfterUpdate(rows: map<int, SettingsRow>, user: int, patch: Patch, other: int)
    ensures FetchSettings(UpdatedRows(rows, user, patch), user).showLogo ==
              (if patch.showLogo.Some? then patch.showLogo.value else FetchSettings(rows, user).showLogo)
    ensures FetchSettings(UpdatedRows(rows, user, patch), user).limit ==
              (if patch.limit.Some? then patch.limit.value else FetchSettings(rows, user).limit)
    ensures other != user ==> FetchSettings(UpdatedRows(rows, user, patch), other) == FetchSettings(rows, other)
  {
    var merged := Merge(FetchSettings(rows, user), patch);
    assert UpdatedRows(rows, user, patch)[user] == RowOf(merged);
    assert FetchSettings(UpdatedRows(rows, user, patch), user) == merged;
  }

  /** An update that supplies nothing leaves the user's settings as they read. */
  lemma EmptyPatchKeepsSettings(rows: map<int, SettingsRow>, user: int)
    ensures FetchSettings(UpdatedRows(rows, user, Patch(None, None)), user) == FetchSettings(rows, user)
  {
    FetchAfterUpdate(rows, user, Patch(None, None), user);
  }

  /** Applying the same update twice reads the same as applying it once. */
  lemma UpdateIdempotent(rows: map<int, SettingsRow>, user: int, patch: Patch)
    ensures FetchSettings(UpdatedRows(UpdatedRows(rows, user, patch), user, patch), user) ==
            FetchSettings(UpdatedRows(rows, user, patch), user)
  {
    FetchAfterUpdate(rows, user, patch, user);
    FetchAfterUpdate(UpdatedRows(rows, user, patch), user, patch, user);
  }

  /** A limit update is written exactly when the new limit fits an SQLite INTEGER. */
  lemma LimitPatchWritable(rows: map<int, SettingsRow>, user: int, n: int)
    ensures Writable(rows, user, Patch(None, Some(n))) <==> INT64_MIN <= n <= INT64_MAX
  {
  }

  /** A logo update keeps the current limit, so on a table of storable rows
      it is always written. */
  lemma {:induction false} LogoPatchWritable(rows: map<int, SettingsRow>, user: int, b: bool)
    requires RowsFit(rows)
    ensures Writable(rows, user, Patch(Some(b), None))
  {
    if user in rows {
      assert FitsInteger(rows[user].lim);
    }
  }

  /** A written update leaves every row storable. */
  lemma {:induction false} UpdateKeepsRowsFit(rows: map<int, SettingsRow>, user: int, patch: Patch)
    requires RowsFit(rows) && Writable(rows, user, patch)
    ensures RowsFit(UpdatedRows(rows, user, patch))
  {
    var updated := UpdatedRows(rows, user, patch);
    forall u | u in updated
      ensures FitsInteger(updated[u].showLogo) && FitsInteger(updated[u].lim)
    {
      if u != user {
        assert updated[u] == rows[u];
      }
    }
  }
}
