/**
 * `scripts/touch-updatedAt.mjs`: for each path named in the `MODIFIED`
 * environment variable that is a build, guide or tool file, set its
 * `updatedAt` field to today's date.
 *
 * The environment variable, the current ISO timestamp and the files are
 * parameters; a file is its parse result (None when it cannot be parsed),
 * and a path missing from the map cannot be read.
 */
module TouchUpdatedAt {
  import opened Wrappers
  import opened Text
  import opened Json

  type Disk = map<string, Option<Value>>

  // ---------------------------------------------------------------------
  // The MODIFIED list
  // ---------------------------------------------------------------------

  /** The trimmed lines that are not empty, in order. */
  function NonEmptyTrimmed(lines: seq<string>): (paths: seq<string>)
    ensures forall p :: p in paths ==> p != "" && exists l :: l in lines && Trim(l) == p
    ensures forall l :: l in lines && Trim(l) != "" ==> Trim(l) in paths
  {
    if lines == [] then []
    else
      var rest := NonEmptyTrimmed(lines[1..]);
      assert forall l :: l in lines[1..] ==> l in lines;
      assert forall l :: l in lines ==> l == lines[0] || l in lines[1..];
      if Trim(lines[0]) == "" then rest else [Trim(lines[0])] + rest
  }

  /** `(process.env.MODIFIED || '').split('\n').map(s => s.trim()).filter(Boolean)`. */
  function ModifiedList(env: Option<string>): (paths: seq<string>)
    ensures var lines := Split(env.GetOr(""), '\n');
      && (forall p :: p in paths ==> p != "" && exists l :: l in lines && Trim(l) == p)
      && (forall l :: l in lines && Trim(l) != "" ==> Trim(l) in paths)
  {
    NonEmptyTrimmed(Split(env.GetOr(""), '\n'))
  }

  /** Every listed path is a non-empty, already trimmed piece of one line of `MODIFIED`. */
  lemma ModifiedListEntries(env: Option<string>)
    ensures env.None? ==> ModifiedList(env) == []
    ensures forall p :: p in ModifiedList(env) ==> p != "" && Trim(p) == p && '\n' !in p
  {
    var lines := Split(env.GetOr(""), '\n');
    if env.None? {
      SplitNoSeparator("", '\n');
      assert Trim("") == "";
    }
    forall p | p in ModifiedList(env) ensures p != "" && Trim(p) == p && '\n' !in p {
      var l :| l in lines && Trim(l) == p;
      TrimIdempotent(l);
      TrimSpec(l);
      var a, b :| 0 <= a <= b <= |l| && p == l[a..b];
      assert '\n' !in l;
    }
  }

  // ---------------------------------------------------------------------
  // The path gate
  // ---------------------------------------------------------------------

  /** The characters `.` in a regular expression does not match. */
  predicate IsLineTerminator(c: char) {
    c == '\n' || c == '\r' || c as int == 0x2028 || c as int == 0x2029
  }

  /** A name `.+` can match: no line terminator in it. */
  predicate SingleLine(name: string) {
    forall i :: 0 <= i < |name| ==> !IsLineTerminator(name[i])
  }

  /** `f` is `content/<dir>/<one or more non-line-terminators>.json`. */
  predicate InCollection(f: string, dir: string) {
    var prefix := "content/" + dir + "/";
    && |f| >= |prefix| + 6
    && StartsWith(f, prefix)
    && EndsWith(f, ".json")
    && forall i :: |prefix| <= i < |f| - 5 ==> !IsLineTerminator(f[i])
  }

  /** `/^content\/(builds|guides|tools)\/.+\.json$/.test(f)`. */
  predicate Gate(f: string) {
    InCollection(f, "builds") || InCollection(f, "guides") || InCollection(f, "tools")
  }

  const Collections: seq<string> := ["builds", "guides", "tools"]

  /** `f` is the file `name.json` of the collection directory `dir`. */
  predicate IsCollectionPath(f: string, dir: string, name: string) {
    name != [] && SingleLine(name) && f == "content/" + dir + "/" + name + ".json"
  }

  /** Any non-empty single-line name under a collection directory passes, `index` included. */
  lemma InCollectionOf(dir: string, name: string)
    requires name != [] && SingleLine(name)
    ensures InCollection("content/" + dir + "/" + name + ".json", dir)
  {
    var prefix := "content/" + dir + "/";
    var f := prefix + name + ".json";
    assert f[..|prefix|] == prefix;
    assert f[|f| - 5..] == ".json";
    assert forall i :: |prefix| <= i < |f| - 5 ==> f[i] == name[i - |prefix|];
  }

  /** The only paths in a collection are its files `name.json`, for a non-empty single-line `name`. */
  lemma InCollectionShape(f: string, dir: string)
    ensures InCollection(f, dir) <==> exists name :: IsCollectionPath(f, dir, name)
  {
    var prefix := "content/" + dir + "/";
    if InCollection(f, dir) {
      var name := f[|prefix|..|f| - 5];
      assert f == f[..|prefix|] + name + f[|f| - 5..];
      assert forall i :: 0 <= i < |name| ==> name[i] == f[|prefix| + i];
      assert IsCollectionPath(f, dir, name);
    }
    if exists name :: IsCollectionPath(f, dir, name) {
      var name :| IsCollectionPath(f, dir, name);
      InCollectionOf(dir, name);
    }
  }

  /** The gate admits exactly the files `content/<dir>/<name>.json` of the three collections. */
  lemma GateShape(f: string)
    ensures Gate(f) <==> exists dir, name :: dir in Collections && IsCollectionPath(f, dir, name)
  {
    InCollectionShape(f, "builds");
    InCollectionShape(f, "guides");
    InCollectionShape(f, "tools");
    if exists dir, name :: dir in Collections && IsCollectionPath(f, dir, name) {
      var dir, name :| dir in Collections && IsCollectionPath(f, dir, name);
      assert dir == Collections[0] || dir == Collections[1] || dir == Collections[2];
    }
  }

  /** The pattern does not exclude the generated `index.json` of builds, guides and tools. */
  lemma GateAdmitsIndex(dir: string)
    requires dir == "builds" || dir == "guides" || dir == "tools"
    ensures Gate("content/" + dir + "/" + "index" + ".json")
  {
    InCollectionOf(dir, "index");
  }

  // ---------------------------------------------------------------------
  // One file
  // ---------------------------------------------------------------------

  /** `new Date().toISOString().slice(0, 10)`. */
  function Today(iso: string): (day: string)
    ensures |day| == if |iso| < 10 then |iso| else 10
    ensures StartsWith(iso, day)
  {
    if |iso| < 10 then iso else iso[..10]
  }

  /**
   * A file after `j.updatedAt = today` and writing `j` back: an object
   * gains or replaces `updatedAt`; an array is written back with the same
   * elements (`JSON.stringify` drops the property); any other value makes
   * the assignment throw, so the file is skipped; an unparsable file is
   * skipped too.
   */
  function Touched(file: Option<Value>, today: string): (after: Option<Value>)
    ensures after.None? <==> file.None?
    ensures file.Some? && file.value.Obj? ==>
      && after.Some? && after.value.Obj?
      && after.value.fields.Keys == file.value.fields.Keys + {"updatedAt"}
      && after.value.fields["updatedAt"] == Str(today)
      && forall k :: k in file.value.fields && k != "updatedAt" ==> after.value.fields[k] == file.value.fields[k]
    ensures !(file.Some? && file.value.Obj?) ==> after == file
  {
    match file
    case Some(Obj(fields)) => Some(Obj(fields["updatedAt" := Str(today)]))
    case _ => file
  }

  /** Setting the field twice to the same date is setting it once. */
  lemma TouchedIdempotent(file: Option<Value>, today: string)
    ensures Touched(Touched(file, today), today) == Touched(file, today)
  {
    match file
    case Some(Obj(fields)) =>
      assert fields["updatedAt" := Str(today)]["updatedAt" := Str(today)] == fields["updatedAt" := Str(today)];
    case _ =>
  }

  /** A path is rewritten when it passes the gate and parses to an object or an array. */
  predicate Rewritten(disk: Disk, f: string) {
    Gate(f) && f in disk && disk[f].Some? && (disk[f].value.Obj? || disk[f].value.Arr?)
  }

  /** The files after the run: each gated, listed path touched, everything else as it was. */
  function TouchedDisk(disk: Disk, paths: seq<string>, today: string): (after: Disk)
    ensures after.Keys == disk.Keys
  {
    map f | f in disk :: if f in paths && Gate(f) then Touched(disk[f], today) else disk[f]
  }

  /** Running the script twice on the same day leaves the files as one run did. */
  lemma RunTwice(disk: Disk, paths: seq<string>, today: string)
    ensures TouchedDisk(TouchedDisk(disk, paths, today), paths, today) == TouchedDisk(disk, paths, today)
  {
    forall f | f in disk && f in paths && Gate(f) {
      TouchedIdempotent(disk[f], today);
    }
  }

  /** Listing one more path touches that path, if it passes the gate, and nothing else. */
  lemma TouchStep(disk: Disk, paths: seq<string>, f: string, today: string)
    requires f in disk && Gate(f)
    ensures TouchedDisk(disk, paths + [f], today) == TouchedDisk(disk, paths, today)[f := Touched(disk[f], today)]
  {
    var before := TouchedDisk(disk, paths, today);
    var after := TouchedDisk(disk, paths + [f], today);
    forall g | g in disk ensures after[g] == before[f := Touched(disk[f], today)][g] {
      assert g in paths + [f] <==> g in paths || g == f;
    }
  }

  /** A path that fails the gate or is missing leaves the files as they were. */
  lemma SkipStep(disk: Disk, paths: seq<string>, f: string, today: string)
    requires !(f in disk && Gate(f))
    ensures TouchedDisk(disk, paths + [f], today) == TouchedDisk(disk, paths, today)
  {
    forall g | g in disk
      ensures TouchedDisk(disk, paths + [f], today)[g] == TouchedDisk(disk, paths, today)[g]
    {
      assert g in paths + [f] <==> g in paths || g == f;
    }
  }

  /**
   * One path of the loop: a path that passes the gate and reads as an
   * object gets `updatedAt`, one that reads as an array is written back
   * as it is; anything else is skipped. Returns whether it was written.
   */
  method TouchOne(files: Disk, f: string, today: string) returns (next: Disk, wrote: bool)
    ensures Gate(f) && f in files ==> next == files[f := Touched(files[f], today)]
    ensures !(Gate(f) && f in files) ==> next == files
    ensures wrote <==> Gate(f) && f in files && files[f].Some? && (files[f].value.Obj? || files[f].value.Arr?)
  {
    next, wrote := files, false;
    if !Gate(f) || f !in files {
      return;
    }
    var cur := files[f];
    if cur.Some? && cur.value.Obj? {
      next := files[f := Some(Obj(cur.value.fields["updatedAt" := Str(today)]))];
      wrote := true;
    } else if cur.Some? && cur.value.Arr? {
      next := files[f := cur];
      wrote := true;
    } else {
      assert files == files[f := Touched(cur, today)];
    }
  }

  /** The script's loop over the listed paths; returns the files afterwards and the paths it wrote, in order. */
  method TouchAll(disk: Disk, paths: seq<string>, today: string) returns (after: Disk, written: seq<string>)
    ensures after == TouchedDisk(disk, paths, today)
    ensures forall f :: f in written <==> f in paths && Rewritten(disk, f)
  {
    after := disk;
    written := [];
    assert TouchedDisk(disk, [], today) == disk;
    for i := 0 to |paths|
      invariant after == TouchedDisk(disk, paths[..i], today)
      invariant forall g :: g in written <==> g in paths[..i] && Rewritten(disk, g)
    {
      var f := paths[i];
      assert paths[..i + 1] == paths[..i] + [f];
      var wrote;
      if Gate(f) && f in disk {
        TouchStep(disk, paths[..i], f, today);
        TouchedIdempotent(disk[f], today);
        assert Rewritten(disk, f) <==> after[f].Some? && (after[f].value.Obj? || after[f].value.Arr?);
      } else {
        SkipStep(disk, paths[..i], f, today);
      }
      after, wrote := TouchOne(after, f, today);
      if wrote {
        written := written + [f];
      }
    }
    assert paths[..|paths|] == paths;
  }

  /** The whole script: today's date, the paths named in `MODIFIED`, then the loop. */
  method Run(disk: Disk, modified: Option<string>, iso: string) returns (after: Disk, written: seq<string>)
    ensures after == TouchedDisk(disk, ModifiedList(modified), Today(iso))
    ensures forall f :: f in disk && !(f in ModifiedList(modified) && Gate(f)) ==> after[f] == disk[f]
    ensures forall f :: f in written <==> f in ModifiedList(modified) && Rewritten(disk, f)
  {
    after, written := TouchAll(disk, ModifiedList(modified), Today(iso));
  }
}
