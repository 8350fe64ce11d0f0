/**
 * The author-profile index the list handlers build with `reduce`: one entry per profile id,
 * a later row overwriting an earlier one with the same id.
 */
module Profiles {
  import opened Wrappers

  /** A `profiles` row as selected: id, and name and avatar URL, either of which may be null. */
  datatype ProfileRow = ProfileRow(id: string, name: Option<string>, avatarUrl: Option<string>)

  /** The value stored under a profile id. */
  datatype ProfileView = ProfileView(name: Option<string>, avatarUrl: Option<string>)

  function ViewOf(p: ProfileRow): ProfileView {
    ProfileView(p.name, p.avatarUrl)
  }

  /** The ids a list of rows refers to (`Array.from(new Set(ids))`, order aside). */
  function IdSet(ids: seq<string>): (s: set<string>)
    ensures forall id :: id in s <==> id in ids
    ensures s == {} <==> ids == []
  {
    assert ids != [] ==> ids[0] in ids;
    set id | id in ids
  }

  /** The index the `reduce` builds, applying the rows left to right: at most one entry per row. */
  function ProfileIndex(rows: seq<ProfileRow>): (index: map<string, ProfileView>)
    ensures |index| <= |rows|
  {
    if rows == [] then map[]
    else ProfileIndex(rows[..|rows| - 1])[rows[|rows| - 1].id := ViewOf(rows[|rows| - 1])]
  }

  /** The index a list handler resolves authors through: the profiles read, or none at all when
      that read failed. */
  function ListIndex(profiles: Result<seq<ProfileRow>, string>): (index: map<string, ProfileView>)
    ensures profiles.Err? ==> index == map[]
    ensures profiles.Ok? ==> index == ProfileIndex(profiles.value)
  {
    if profiles.Ok? then ProfileIndex(profiles.value) else map[]
  }

  /** The row stored for id `id` is the last row carrying that id. */
  ghost predicate LastWith(rows: seq<ProfileRow>, id: string, i: int) {
    0 <= i < |rows| && rows[i].id == id && forall j :: i < j < |rows| ==> rows[j].id != id
  }

  /** The ids of the rows. */
  function RowIds(rows: seq<ProfileRow>): set<string> {
    set i | 0 <= i < |rows| :: rows[i].id
  }

  /** The index holds exactly the ids of the rows. */
  lemma {:induction false} ProfileIndexKeys(rows: seq<ProfileRow>)
    ensures ProfileIndex(rows).Keys == RowIds(rows)
    decreases |rows|
  {
    if rows != [] {
      var init := rows[..|rows| - 1];
      ProfileIndexKeys(init);
      assert RowIds(rows) == RowIds(init) + {rows[|rows| - 1].id} by {
        forall id | id in RowIds(rows) ensures id in RowIds(init) + {rows[|rows| - 1].id} {
          var i :| 0 <= i < |rows| && rows[i].id == id;
          if i < |rows| - 1 { assert init[i].id == id; }
        }
        forall id | id in RowIds(init) ensures id in RowIds(rows) {
          var i :| 0 <= i < |init| && init[i].id == id;
          assert rows[i].id == id;
        }
      }
    }
  }

  /** Under each id the index holds the last row with that id. */
  lemma {:induction false} ProfileIndexLastWins(rows: seq<ProfileRow>, id: string, i: int)
    requires LastWith(rows, id, i)
    ensures id in ProfileIndex(rows) && ProfileIndex(rows)[id] == ViewOf(rows[i])
    decreases |rows|
  {
    if i < |rows| - 1 {
      var init := rows[..|rows| - 1];
      assert LastWith(init, id, i);
      ProfileIndexLastWins(init, id, i);
    }
  }

  /** The `reduce` itself: `acc[p.id] = { name, avatar_url }` for each row in turn. */
  method ReduceProfiles(rows: seq<ProfileRow>) returns (acc: map<string, ProfileView>)
    ensures acc == ProfileIndex(rows)
  {
    acc := map[];
    var i := 0;
    while i < |rows|
      invariant 0 <= i <= |rows|
      invariant acc == ProfileIndex(rows[..i])
    {
      assert rows[..i + 1][..i] == rows[..i];
      acc := acc[rows[i].id := ViewOf(rows[i])];
      i := i + 1;
    }
    assert rows[..|rows|] == rows;
  }
}
