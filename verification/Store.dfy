/** The database: three tables, their constraints and the operations on them. */
module Store {
  import opened Catalog
  import opened Orders

  datatype Usage = Usage(downloads: nat, first: int, last: int)

  /** Skills by id, API key names by id, and download counters by (skill, key). */
  datatype Tables = Tables(skills: Rows, keys: map<string, string>, downloads: map<(string, string), Usage>)

  datatype StoreFault = InvalidContents | ConstraintFailed | NotFound | Unavailable

  datatype Pending = Pending(id: string, contents: string)

  /** Foreign keys and CHECK constraints. */
  ghost predicate Sound(t: Tables) {
    && (forall p | p in t.downloads :: p.0 in t.skills && p.1 in t.keys && t.downloads[p].downloads >= 1)
    && (forall id | id in t.skills :: RowAccepted(t.skills[id]))
  }

  function Upserted(t: Tables, id: string, row: Row): Tables {
    t.(skills := t.skills[id := row])
  }

  /** Deleting a skill cascades to its download counters. */
  function Deleted(t: Tables, id: string): Tables {
    t.(skills := t.skills - {id}, downloads := map p | p in t.downloads && p.0 != id :: t.downloads[p])
  }

  function Downloaded(t: Tables, skill: string, key: string, now: int): Tables {
    var p := (skill, key);
    var usage := if p in t.downloads then Usage(t.downloads[p].downloads + 1, t.downloads[p].first, now)
                 else Usage(1, now, now);
    t.(downloads := t.downloads[p := usage])
  }

  /** The ids of rows no auditor has passed yet. */
  function Unassessed(rows: Rows): set<string> {
    set id | id in rows && !rows[id].llmChecked
  }

  function FirstNamed(files: seq<File>, name: string): Option<string> {
    if files == [] then None
    else if files[0].path == name then Some(files[0].contents)
    else FirstNamed(files[1..], name)
  }

  /** The contents handed to the auditor for a stored row: SKILL.md before SKILLS.md, else nothing. */
  function PendingContents(files: seq<File>): string {
    match FirstNamed(files, "SKILL.md")
    case Some(contents) => contents
    case None =>
      match FirstNamed(files, "SKILLS.md")
      case Some(contents) => contents
      case None => ""
  }

  lemma {:induction false} FirstNamedIsAFile(files: seq<File>, name: string)
    ensures FirstNamed(files, name).Some? ==>
      exists f :: f in files && f.path == name && f.contents == FirstNamed(files, name).value
  {
    if files != [] {
      if files[0].path == name {
        assert files[0] in files;
      } else {
        FirstNamedIsAFile(files[1..], name);
        assert forall f | f in files[1..] :: f in files;
      }
    }
  }

  /** Non-empty pending contents are those of a canonical file of the row. */
  lemma PendingIsCanonical(files: seq<File>)
    requires PendingContents(files) != ""
    ensures CanonicalPresent(PendingContents(files), files)
  {
    FirstNamedIsAFile(files, "SKILL.md");
    FirstNamedIsAFile(files, "SKILLS.md");
  }

  /** The first file of a name, if there is one. */
  ghost predicate IsFirstNamed(files: seq<File>, name: string, contents: string) {
    exists k | 0 <= k < |files| ::
      files[k].path == name && files[k].contents == contents && forall i | 0 <= i < k :: files[i].path != name
  }

  lemma {:induction false} FirstNamedIs(files: seq<File>, name: string)
    ensures FirstNamed(files, name).None? <==> forall f | f in files :: f.path != name
    ensures FirstNamed(files, name).Some? ==> IsFirstNamed(files, name, FirstNamed(files, name).value)
  {
    if files != [] {
      FirstNamedIs(files[1..], name);
      if files[0].path != name && FirstNamed(files[1..], name).Some? {
        var k :| 0 <= k < |files[1..]| && files[1..][k].path == name
          && files[1..][k].contents == FirstNamed(files[1..], name).value
          && forall i | 0 <= i < k :: files[1..][i].path != name;
        assert files[k + 1] == files[1..][k];
        assert forall i | 0 < i < k + 1 :: files[i] == files[1..][i - 1];
      }
    }
  }

  /** The pending contents are those of the first SKILL.md, without one those of the first SKILLS.md, and
      empty when there is neither. */
  lemma PendingIsFirst(files: seq<File>)
    ensures (exists f :: f in files && f.path == "SKILL.md") ==> IsFirstNamed(files, "SKILL.md", PendingContents(files))
    ensures (forall f | f in files :: f.path != "SKILL.md") && (exists f :: f in files && f.path == "SKILLS.md") ==>
      IsFirstNamed(files, "SKILLS.md", PendingContents(files))
    ensures (forall f | f in files :: f.path != "SKILL.md" && f.path != "SKILLS.md") ==> PendingContents(files) == ""
  {
    FirstNamedIs(files, "SKILL.md");
    FirstNamedIs(files, "SKILLS.md");
  }

  function Assessed(row: Row, a: Assessment, at: int): Row {
    row.(security := a.score, quality := a.quality, llmChecked := true, status := a.status, summary := a.summary,
         riskLevel := a.riskLevel, categories := a.categories, auditedAt := at, updatedAt := at)
  }

  /** What every catalog read filters on. */
  function Visible(rows: Rows, checkedOnly: bool): set<string> {
    set id | id in rows && (checkedOnly ==> rows[id].llmChecked)
  }

  /** A single connection to the database; `up` says whether the driver carries a statement out. */
  class SQLite {
    var tables: Tables

    constructor ()
      ensures Sound(tables) && tables == Tables(map[], map[], map[])
    {
      tables := Tables(map[], map[], map[]);
    }

    method UpsertSkill(id: string, row: Row, up: bool) returns (fault: Option<StoreFault>)
      requires Sound(tables)
      modifies this
      ensures Sound(tables)
      ensures fault.None? <==>
        && up && (forall f | f in row.files :: f.utf8 && '\0' !in f.contents)
        && row.stars >= 11 && row.installs >= 0 && 5 <= row.security <= 10 && 5 <= row.quality <= 10
      ensures fault == Some(InvalidContents) <==> exists f :: f in row.files && (!f.utf8 || '\0' in f.contents)
      ensures fault.None? ==> tables == old(tables).(skills := old(tables).skills[id := row])
      ensures fault.Some? ==> tables == old(tables)
    {
      for k := 0 to |row.files|
        invariant forall f | f in row.files[..k] :: f.utf8 && '\0' !in f.contents
      {
        if '\0' in row.files[k].contents || !row.files[k].utf8 {
          return Some(InvalidContents);
        }
      }
      if !up {
        return Some(Unavailable);
      }
      if !RowAccepted(row) {
        return Some(ConstraintFailed);
      }
      tables := Upserted(tables, id, row);
      return None;
    }

    method DeleteSkill(id: string, up: bool) returns (fault: Option<StoreFault>)
      requires Sound(tables)
      modifies this
      ensures Sound(tables)
      ensures fault == if up then None else Some(Unavailable)
      ensures tables == if up then Deleted(old(tables), id) else old(tables)
      ensures up ==>
        && tables.skills == old(tables).skills - {id} && tables.keys == old(tables).keys
        && (forall p :: p in tables.downloads <==> p in old(tables).downloads && p.0 != id)
        && (forall p | p in tables.downloads :: tables.downloads[p] == old(tables).downloads[p])
    {
      if !up {
        return Some(Unavailable);
      }
      tables := Deleted(tables, id);
      return None;
    }

    method UpdateSkillAssessment(id: string, a: Assessment, at: int, up: bool) returns (fault: Option<StoreFault>)
      requires Sound(tables)
      modifies this
      ensures Sound(tables)
      ensures fault.None? <==> (up && id in Unassessed(old(tables).skills)
        && RowAccepted(Assessed(old(tables).skills[id], a, at)))
      ensures up && id !in Unassessed(old(tables).skills) ==> fault == Some(NotFound)
      ensures fault.None? ==> tables == Upserted(old(tables), id, Assessed(old(tables).skills[id], a, at))
      ensures fault.Some? ==> tables == old(tables)
    {
      if !up {
        return Some(Unavailable);
      }
      if id !in tables.skills || tables.skills[id].llmChecked {
        return Some(NotFound);
      }
      if !RowAccepted(Assessed(tables.skills[id], a, at)) {
        return Some(ConstraintFailed);
      }
      tables := Upserted(tables, id, Assessed(tables.skills[id], a, at));
      return None;
    }

    method UnassessedSkillCount() returns (count: nat)
      ensures count == |Unassessed(tables.skills)|
    {
      count := |Unassessed(tables.skills)|;
    }

    /** The first `limit` unassessed rows in ascending id order, each with its canonical file only. */
    method UnassessedSkills(limit: nat) returns (pending: seq<Pending>)
      ensures var ids := Ascending(Unassessed(tables.skills));
        && |pending| == (if |ids| < limit then |ids| else limit)
        && |pending| <= |ids|
        && forall k | 0 <= k < |pending| ::
             ids[k] in tables.skills && pending[k] == Pending(ids[k], PendingContents(tables.skills[ids[k]].files))
    {
      var open := Unassessed(tables.skills);
      ghost var ids := Ascending(open);
      pending := [];
      while open != {} && |pending| < limit
        invariant |pending| <= limit && |pending| <= |ids| && open <= Unassessed(tables.skills)
        invariant Ascending(open) == ids[|pending|..]
        invariant forall k | 0 <= k < |pending| ::
          ids[k] in tables.skills && pending[k] == Pending(ids[k], PendingContents(tables.skills[ids[k]].files))
        decreases open
      {
        AscendingTail(open);
        var id := Least(open);
        assert id == ids[|pending|];
        pending := pending + [Pending(id, PendingContents(tables.skills[id].files))];
        open := open - {id};
      }
      if open != {} {
        AscendingTail(open);
      }
    }

    method FreshSkillIDs(cutoff: int) returns (ids: set<string>)
      ensures forall id :: id in ids <==> id in tables.skills && tables.skills[id].updatedAt > cutoff
    {
      ids := set id | id in tables.skills && tables.skills[id].updatedAt > cutoff;
    }

    method SkillContentHashes() returns (hashes: map<string, string>)
      ensures hashes.Keys == tables.skills.Keys
      ensures forall id | id in hashes :: hashes[id] == tables.skills[id].hash
    {
      hashes := map id | id in tables.skills :: tables.skills[id].hash;
    }

    method GetSkill(id: string, checkedOnly: bool) returns (row: Option<Row>)
      ensures row.Some? <==> id in tables.skills && (checkedOnly ==> tables.skills[id].llmChecked)
      ensures row.Some? <==> id in Visible(tables.skills, checkedOnly)
      ensures row.Some? ==> row.value == tables.skills[id]
    {
      if id in tables.skills && (!checkedOnly || tables.skills[id].llmChecked) {
        row := Some(tables.skills[id]);
      } else {
        row := None;
      }
    }

    method CreateAPIKey(id: string, name: string)
      requires Sound(tables) && id !in tables.keys
      modifies this
      ensures Sound(tables) && tables == old(tables).(keys := old(tables).keys[id := name])
    {
      tables := tables.(keys := tables.keys[id := name]);
    }

    /** Counts a download; the foreign keys refuse an unknown skill or key. */
    method RecordSkillDownload(skill: string, key: string, now: int, up: bool) returns (fault: Option<StoreFault>)
      requires Sound(tables)
      modifies this
      ensures Sound(tables)
      ensures fault.None? <==> up && skill in old(tables).skills && key in old(tables).keys
      ensures tables == if fault.None? then Downloaded(old(tables), skill, key, now) else old(tables)
    {
      if !up {
        return Some(Unavailable);
      }
      if skill !in tables.skills || key !in tables.keys {
        return Some(ConstraintFailed);
      }
      tables := Downloaded(tables, skill, key, now);
      return None;
    }
  }
}
