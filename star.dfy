/**
 * The `star` and `unstar` endpoints: the ids of the three id parameters are
 * parsed, unparsable ones dropped, and each is inserted into or deleted from
 * the `starred` table one statement at a time.
 */
module Star {

  import opened Base
  import opened Catalog
  import opened Format
  import opened Uuids

  /** `StarParams`; a parameter that is absent is the empty list. */
  datatype StarParams = StarParams(id: seq<string>, albumId: seq<string>, artistId: seq<string>)

  /** `Uuid::from_str(s).ok()`; the accepted spellings are not modelled. */
  type UuidParser = string -> Option<Uuid>

  /** A parser that reads back the hyphenated text of every UUID. */
  ghost predicate ReadsHyphenated(parse: UuidParser)
  {
    forall u: Uuid {:trigger UuidText(u)} :: parse(UuidText(u)) == Some(u)
  }

  /** The parsed value of one string, as a sequence of zero or one ids. */
  function ParsedOne(s: string, parse: UuidParser): (r: seq<Uuid>)
    ensures |r| <= 1
    ensures r == [] <==> parse(s).None?
  {
    match parse(s)
    case Some(u) => [u]
    case None => []
  }

  /** `iter().filter_map(|s| Uuid::from_str(s).ok())`. */
  function ParseAll(ss: seq<string>, parse: UuidParser): (r: seq<Uuid>)
    ensures |r| <= |ss|
  {
    if ss == [] then [] else ParsedOne(ss[0], parse) + ParseAll(ss[1..], parse)
  }

  /** The parsed ids are exactly the values of the strings that parse. */
  lemma {:induction false} ParseAllMembers(ss: seq<string>, parse: UuidParser)
    ensures forall u :: u in ParseAll(ss, parse) <==> exists s :: s in ss && parse(s) == Some(u)
  {
    if ss != [] {
      ParseAllMembers(ss[1..], parse);
      assert forall s :: s in ss <==> s == ss[0] || s in ss[1..];
    }
  }

  lemma {:induction false} ParseAllSnoc(ss: seq<string>, s: string, parse: UuidParser)
    ensures ParseAll(ss + [s], parse) == ParseAll(ss, parse) + ParsedOne(s, parse)
  {
    if ss == [] {
      assert [s][1..] == [];
    } else {
      assert (ss + [s])[1..] == ss[1..] + [s];
      ParseAllSnoc(ss[1..], s, parse);
    }
  }

  /** The hyphenated texts of some UUIDs. */
  function Texts(us: seq<Uuid>): (r: seq<string>)
    ensures |r| == |us| && forall i :: 0 <= i < |us| ==> r[i] == UuidText(us[i])
  {
    if us == [] then [] else [UuidText(us[0])] + Texts(us[1..])
  }

  /** Every id written in hyphenated form comes back, in order. */
  lemma {:induction false} ParseAllTexts(us: seq<Uuid>, parse: UuidParser)
    requires ReadsHyphenated(parse)
    ensures ParseAll(Texts(us), parse) == us
  {
    if us != [] {
      assert Texts(us)[1..] == Texts(us[1..]);
      ParseAllTexts(us[1..], parse);
      assert parse(UuidText(us[0])) == Some(us[0]);
    }
  }

  /** `StarParams::all_ids`: `id`, then `albumId`, then `artistId`. */
  function AllIds(p: StarParams, parse: UuidParser): (r: seq<Uuid>)
    ensures |r| <= |p.id| + |p.albumId| + |p.artistId|
  {
    ParseAll(p.id, parse) + ParseAll(p.albumId, parse) + ParseAll(p.artistId, parse)
  }

  /** An id is collected exactly when some string of the three parameters parses to it. */
  lemma AllIdsMembers(p: StarParams, parse: UuidParser)
    ensures forall u :: u in AllIds(p, parse) <==>
      exists s :: (s in p.id || s in p.albumId || s in p.artistId) && parse(s) == Some(u)
  {
    ParseAllMembers(p.id, parse);
    ParseAllMembers(p.albumId, parse);
    ParseAllMembers(p.artistId, parse);
  }

  /** `ids.extend(ss.iter().filter_map(..))`. */
  method ExtendParsed(ids: seq<Uuid>, ss: seq<string>, parse: UuidParser) returns (r: seq<Uuid>)
    ensures r == ids + ParseAll(ss, parse)
  {
    r := ids;
    for i := 0 to |ss|
      invariant r == ids + ParseAll(ss[..i], parse)
    {
      assert ss[..i + 1] == ss[..i] + [ss[i]];
      ParseAllSnoc(ss[..i], ss[i], parse);
      match parse(ss[i]) {
        case Some(u) => r := r + [u];
        case None =>
      }
    }
    assert ss[..|ss|] == ss;
  }

  /** `all_ids`, as the three `extend` calls on a growing vector. */
  method CollectAllIds(p: StarParams, parse: UuidParser) returns (ids: seq<Uuid>)
    ensures ids == AllIds(p, parse)
  {
    var a := ExtendParsed([], p.id, parse);
    var ab := ExtendParsed(a, p.albumId, parse);
    ids := ExtendParsed(ab, p.artistId, parse);
  }

  // ---- star -------------------------------------------------------------

  /**
   * The `starred` table after `INSERT OR IGNORE` of each id in turn; the
   * `i`-th insert is stamped `clock(i)`, as the clock is read per statement.
   */
  function StarAll(m: map<Uuid, Timestamp>, ids: seq<Uuid>, clock: nat -> Timestamp): map<Uuid, Timestamp>
  {
    if ids == [] then m
    else PutIfAbsent(StarAll(m, ids[..|ids| - 1], clock), ids[|ids| - 1], clock(|ids| - 1))
  }

  /**
   * Starring adds exactly the ids, keeps every existing entry, and stamps a
   * new entry with the time of its first insert.
   */
  lemma StarAllContents(m: map<Uuid, Timestamp>, ids: seq<Uuid>, clock: nat -> Timestamp)
    ensures var r := StarAll(m, ids, clock);
      (forall k :: k in r <==> k in m || k in ids)
      && (forall k :: k in m ==> r[k] == m[k])
      && (forall i :: 0 <= i < |ids| && ids[i] !in m && ids[i] !in ids[..i] ==> r[ids[i]] == clock(i))
  {
    StarAllKeys(m, ids, clock);
    StarAllPreserves(m, ids, clock);
    StarAllStamps(m, ids, clock);
  }

  /** The starred ids are the existing ones and the given ones. */
  lemma {:induction false} StarAllKeys(m: map<Uuid, Timestamp>, ids: seq<Uuid>, clock: nat -> Timestamp)
    ensures forall k :: k in StarAll(m, ids, clock) <==> k in m || k in ids
  {
    if ids != [] {
      var n := |ids| - 1;
      var init, x := ids[..n], ids[n];
      StarAllKeys(m, init, clock);
      assert ids == init + [x];
      forall k
        ensures k in StarAll(m, ids, clock) <==> k in m || k in ids
      {
        assert k in ids <==> k in init || k == x;
      }
    }
  }

  /** An existing entry keeps its time. */
  lemma {:induction false} StarAllPreserves(m: map<Uuid, Timestamp>, ids: seq<Uuid>, clock: nat -> Timestamp)
    ensures forall k :: k in m ==> k in StarAll(m, ids, clock) && StarAll(m, ids, clock)[k] == m[k]
  {
    if ids != [] {
      StarAllPreserves(m, ids[..|ids| - 1], clock);
    }
  }

  /** A new entry is stamped with the time of the id's first occurrence. */
  lemma {:induction false} StarAllStamps(m: map<Uuid, Timestamp>, ids: seq<Uuid>, clock: nat -> Timestamp)
    ensures var r := StarAll(m, ids, clock);
      forall i :: 0 <= i < |ids| && ids[i] !in m && ids[i] !in ids[..i] ==> ids[i] in r && r[ids[i]] == clock(i)
  {
    if ids != [] {
      var n := |ids| - 1;
      var init, x := ids[..n], ids[n];
      StarAllStamps(m, init, clock);
      StarAllKeys(m, init, clock);
      var prev := StarAll(m, init, clock);
      var r := StarAll(m, ids, clock);
      assert r == PutIfAbsent(prev, x, clock(n));
      forall i | 0 <= i < |ids| && ids[i] !in m && ids[i] !in ids[..i]
        ensures ids[i] in r && r[ids[i]] == clock(i)
      {
        if i < n {
          assert ids[..i] == init[..i];
          assert init[i] == ids[i];
          assert prev[ids[i]] == clock(i);
        } else {
          assert ids[..i] == init;
          assert x !in prev;
        }
      }
    }
  }

  /** Starring the same ids again changes nothing. */
  lemma {:induction false} StarAllIdempotent(m: map<Uuid, Timestamp>, ids: seq<Uuid>, clock: nat -> Timestamp, later: nat -> Timestamp)
    ensures StarAll(StarAll(m, ids, clock), ids, later) == StarAll(m, ids, clock)
  {
    var r := StarAll(m, ids, clock);
    StarAllContents(m, ids, clock);
    StarAllKeeps(r, ids, later);
  }

  /** Starring ids that are all present already changes nothing. */
  lemma {:induction false} StarAllKeeps(m: map<Uuid, Timestamp>, ids: seq<Uuid>, clock: nat -> Timestamp)
    requires forall i :: 0 <= i < |ids| ==> ids[i] in m
    ensures StarAll(m, ids, clock) == m
  {
    if ids != [] {
      StarAllKeeps(m, ids[..|ids| - 1], clock);
    }
  }

  /** `star`: every parsed id is inserted if absent, in order. */
  method StarHandler(db: Db, format: SubsonicFormat, params: StarParams, parse: UuidParser, clock: nat -> Timestamp)
    returns (r: Rendered<(), ()>)
    requires db.Valid()
    modifies db
    ensures db.Valid()
    ensures db.Snapshot() == old(db.Snapshot()).(starred := StarAll(old(db.starred), AllIds(params, parse), clock))
    ensures r == RenderNone(format)
  {
    ghost var t := db.Snapshot();
    var ids := CollectAllIds(params, parse);
    for i := 0 to |ids|
      invariant db.Valid()
      invariant db.Snapshot() == t.(starred := StarAll(t.starred, ids[..i], clock))
    {
      assert ids[..i + 1][..i] == ids[..i];
      db.InsertStarredIfNotExists(ids[i], clock(i));
    }
    assert ids[..|ids|] == ids;
    r := RenderNone(format);
  }

  // ---- unstar -----------------------------------------------------------

  /** A folder child that `WHERE folder_child_id = id OR song_id = id` selects. */
  predicate MatchesChild(t: Tables, id: Uuid, c: Uuid)
  {
    c in t.folderChildren && (c == id || t.folderChildren[c].songId == Some(id))
  }

  /**
   * `pick` is the answer of `fetch_optional` on that query: some matching
   * row when there is one (SQLite's row order is not modelled), else none.
   */
  ghost predicate IsChildLookup(t: Tables, pick: Uuid -> Option<Uuid>)
  {
    forall id :: (pick(id).Some? ==> MatchesChild(t, id, pick(id).value))
      && (pick(id).None? ==> forall c :: !MatchesChild(t, id, c))
  }

  /** `[Some(id), folder_child_id].iter().flatten()`: the keys one id deletes. */
  function Targets(id: Uuid, pick: Uuid -> Option<Uuid>): (r: seq<Uuid>)
    ensures 1 <= |r| <= 2 && r[0] == id
    ensures |r| == 2 <==> pick(id).Some?
    ensures |r| == 2 ==> r[1] == pick(id).value
  {
    match pick(id)
    case Some(c) => [id, c]
    case None => [id]
  }

  /** The distinct elements of a sequence. */
  function Keys(s: seq<Uuid>): (r: set<Uuid>)
    ensures forall k :: k in r <==> k in s
  {
    set k | k in s
  }

  /** The `starred` table after each id's targets are deleted in turn. */
  function UnstarAll(m: map<Uuid, Timestamp>, ids: seq<Uuid>, pick: Uuid -> Option<Uuid>): map<Uuid, Timestamp>
  {
    if ids == [] then m
    else
      var last := Targets(ids[|ids| - 1], pick);
      UnstarAll(m, ids[..|ids| - 1], pick) - Keys(last)
  }

  /** Every key some id deletes. */
  ghost predicate Deleted(ids: seq<Uuid>, pick: Uuid -> Option<Uuid>, k: Uuid)
  {
    exists i :: 0 <= i < |ids| && (k == ids[i] || pick(ids[i]) == Some(k))
  }

  /** Unstarring keeps exactly the entries no id deletes, with their values. */
  lemma {:induction false} UnstarAllContents(m: map<Uuid, Timestamp>, ids: seq<Uuid>, pick: Uuid -> Option<Uuid>)
    ensures var r := UnstarAll(m, ids, pick);
      (forall k :: k in r <==> k in m && !Deleted(ids, pick, k))
      && (forall k :: k in r ==> r[k] == m[k])
  {
    if ids != [] {
      var n := |ids| - 1;
      var init := ids[..n];
      UnstarAllContents(m, init, pick);
      var r := UnstarAll(m, ids, pick);
      forall k
        ensures k in r <==> k in m && !Deleted(ids, pick, k)
      {
        if Deleted(ids, pick, k) {
          var i :| 0 <= i < |ids| && (k == ids[i] || pick(ids[i]) == Some(k));
          if i < n {
            assert init[i] == ids[i];
            assert Deleted(init, pick, k);
          }
        }
        if Deleted(init, pick, k) {
          var i :| 0 <= i < n && (k == init[i] || pick(init[i]) == Some(k));
          assert ids[i] == init[i];
        }
      }
    }
  }

  /** With a faithful lookup, a deleted entry is an unstarred id or a child the query matched for one. */
  lemma UnstarDeletesOnlyMatches(t: Tables, ids: seq<Uuid>, pick: Uuid -> Option<Uuid>, k: Uuid)
    requires IsChildLookup(t, pick)
    requires k in t.starred && k !in UnstarAll(t.starred, ids, pick)
    ensures k in ids || exists id :: id in ids && MatchesChild(t, id, k)
  {
    UnstarAllContents(t.starred, ids, pick);
    var i :| 0 <= i < |ids| && (k == ids[i] || pick(ids[i]) == Some(k));
    if k != ids[i] {
      assert MatchesChild(t, ids[i], k);
    }
  }

  /** Unstarring ids none of whose targets is starred changes nothing. */
  lemma UnstarNotStarred(m: map<Uuid, Timestamp>, ids: seq<Uuid>, pick: Uuid -> Option<Uuid>)
    requires forall i :: 0 <= i < |ids| ==> ids[i] !in m && (pick(ids[i]).Some? ==> pick(ids[i]).value !in m)
    ensures UnstarAll(m, ids, pick) == m
  {
    UnstarAllContents(m, ids, pick);
  }

  /** Unstarring what was just starred leaves none of the ids and nothing new. */
  lemma UnstarAfterStar(m: map<Uuid, Timestamp>, ids: seq<Uuid>, clock: nat -> Timestamp, pick: Uuid -> Option<Uuid>)
    ensures var r := UnstarAll(StarAll(m, ids, clock), ids, pick);
      (forall i :: 0 <= i < |ids| ==> ids[i] !in r)
      && (forall k :: k in r ==> k in m && r[k] == m[k])
  {
    var s := StarAll(m, ids, clock);
    StarAllContents(m, ids, clock);
    UnstarAllContents(s, ids, pick);
    var r := UnstarAll(s, ids, pick);
    forall i | 0 <= i < |ids|
      ensures ids[i] !in r
    {
      assert Deleted(ids, pick, ids[i]);
    }
  }

  /** The deletes of one id's targets, one statement each. */
  method DeleteTargets(db: Db, targets: seq<Uuid>)
    requires db.Valid()
    modifies db
    ensures db.Valid()
    ensures db.Snapshot() == old(db.Snapshot()).(starred := old(db.starred) - Keys(targets))
  {
    ghost var t := db.Snapshot();
    for j := 0 to |targets|
      invariant db.Valid()
      invariant db.Snapshot() == t.(starred := t.starred - Keys(targets[..j]))
    {
      assert Keys(targets[..j + 1]) == Keys(targets[..j]) + {targets[j]} by {
        assert targets[..j + 1] == targets[..j] + [targets[j]];
      }
      db.DeleteStarred(targets[j]);
    }
    assert targets[..|targets|] == targets;
  }

  /** `unstar`: for each parsed id, the id and the folder child the query found are deleted. */
  method UnstarHandler(db: Db, format: SubsonicFormat, params: StarParams, parse: UuidParser, pick: Uuid -> Option<Uuid>)
    returns (r: Rendered<(), ()>)
    requires db.Valid() && IsChildLookup(db.Snapshot(), pick)
    modifies db
    ensures db.Valid()
    ensures db.Snapshot() == old(db.Snapshot()).(starred := UnstarAll(old(db.starred), AllIds(params, parse), pick))
    ensures r == RenderNone(format)
  {
    ghost var t := db.Snapshot();
    var ids := CollectAllIds(params, parse);
    for i := 0 to |ids|
      invariant db.Valid()
      invariant db.Snapshot() == t.(starred := UnstarAll(t.starred, ids[..i], pick))
    {
      assert ids[..i + 1][..i] == ids[..i];
      var targets := Targets(ids[i], pick);
      DeleteTargets(db, targets);
    }
    assert ids[..|ids|] == ids;
    r := RenderNone(format);
  }
}
