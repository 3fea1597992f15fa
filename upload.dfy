/** The upload routes' own logic: the session table with its expiry, the resolution of a column
 *  mapping in which one source column was chosen for several fields, the column renames built
 *  from the resolved mapping, and the accepted file extensions. */
module Upload {
  import opened Wrappers
  import opened Seqs
  import opened Text
  import opened Frames
  import Parser

  // ---------------------------------------------------------------------------------------------
  // The session table

  const SESSION_TTL_SECONDS: real := 3600.0

  /** The parts of a session the table's housekeeping reads: when it was created (absent when
   *  the entry has no `created_at`) and the path of its uploaded file. */
  datatype Session = Session(createdAt: Option<real>, filePath: Option<string>)

  /** Older than the time to live at `now`; an entry without a creation time counts as created
   *  now, so it never expires. */
  predicate Expired(s: Session, now: real)
  {
    s.createdAt.Some? && now - s.createdAt.value > SESSION_TTL_SECONDS
  }

  /** The sessions a purge at `now` keeps. */
  function Live(m: map<string, Session>, now: real): (r: map<string, Session>)
    ensures forall sid :: sid in r <==> sid in m && !Expired(m[sid], now)
    ensures forall sid :: sid in r ==> r[sid] == m[sid]
  {
    map sid | sid in m && !Expired(m[sid], now) :: m[sid]
  }

  /** Purging twice at the same time removes nothing more, and a later purge keeps no session
   *  that an earlier one removed. */
  lemma LiveSpec(m: map<string, Session>, now: real, later: real)
    ensures Live(Live(m, now), now) == Live(m, now)
    ensures now <= later ==> Live(m, later).Keys <= Live(m, now).Keys
  {
  }

  /** The file `_drop_session` deletes: the session's path, when it is a file of the upload
   *  directory (`isTemp`, a question about the file system). */
  function UnlinkPath(s: Session, isTemp: string -> bool): (r: Option<string>)
    ensures r.Some? ==> s.filePath == r && isTemp(r.value)
  {
    if s.filePath.Some? && isTemp(s.filePath.value) then s.filePath else None
  }

  /** The module-level `sessions` dictionary. */
  class SessionStore {
    var sessions: map<string, Session>

    constructor(initial: map<string, Session>)
      ensures sessions == initial
    {
      sessions := initial;
    }

    /** `_drop_session`: removes the entry, if any, and names the file to delete. */
    method DropSession(sid: string, deleteFile: bool, isTemp: string -> bool) returns (unlinked: Option<string>)
      modifies this
      ensures sessions == old(sessions) - {sid}
      ensures unlinked == if sid in old(sessions) && deleteFile then UnlinkPath(old(sessions)[sid], isTemp) else None
    {
      var s: Option<Session> := if sid in sessions then Some(sessions[sid]) else None;
      sessions := sessions - {sid};
      unlinked := None;
      if s.None? {
        return;
      }
      if deleteFile {
        unlinked := UnlinkPath(s.value, isTemp);
      }
    }

    /** `_purge_expired_sessions` at time `now`: collects the expired ids, then drops each one,
     *  deleting its file. */
    method PurgeExpiredSessions(now: real, isTemp: string -> bool) returns (unlinked: set<string>)
      modifies this
      ensures sessions == Live(old(sessions), now)
      ensures forall p :: p in unlinked <==>
        exists sid :: sid in old(sessions) && Expired(old(sessions)[sid], now) && UnlinkPath(old(sessions)[sid], isTemp) == Some(p)
    {
      var expired: set<string> := {};
      var keys := sessions.Keys;
      while keys != {}
        invariant keys <= sessions.Keys
        invariant forall sid :: sid in expired <==> sid in sessions && sid !in keys && Expired(sessions[sid], now)
        decreases keys
      {
        var sid :| sid in keys;
        if Expired(sessions[sid], now) {
          expired := expired + {sid};
        }
        keys := keys - {sid};
      }
      ghost var start := sessions;
      unlinked := {};
      var todo := expired;
      while todo != {}
        invariant todo <= expired
        invariant sessions == start - (expired - todo)
        invariant forall p :: p in unlinked <==>
          exists sid :: sid in expired - todo && UnlinkPath(start[sid], isTemp) == Some(p)
        decreases todo
      {
        var sid :| sid in todo;
        var u := DropSession(sid, true, isTemp);
        if u.Some? {
          unlinked := unlinked + {u.value};
        }
        todo := todo - {sid};
      }
      assert sessions == Live(start, now);
    }
  }

  // ---------------------------------------------------------------------------------------------
  // The extension check of `upload_file`

  const ALLOWED_EXTENSIONS: seq<string> := [".csv", ".xlsx", ".xls", ".ods"]

  /** The final component of a `/`-separated path. */
  function BaseName(path: string): (r: string)
    ensures |r| <= |path| && r == path[|path| - |r|..]
    ensures forall k :: 0 <= k < |r| ==> r[k] != '/'
    ensures |r| < |path| ==> path[|path| - |r| - 1] == '/'
  {
    if path == [] || path[|path| - 1] == '/' then []
    else BaseName(path[..|path| - 1]) + [path[|path| - 1]]
  }

  /** The position of the last '.' of `name`, or -1. */
  function LastDot(name: string): (i: int)
    ensures -1 <= i < |name|
    ensures i >= 0 ==> name[i] == '.'
    ensures forall k :: i < k < |name| ==> name[k] != '.'
  {
    if name == [] then -1 else if name[|name| - 1] == '.' then |name| - 1 else LastDot(name[..|name| - 1])
  }

  /** `PurePath.suffix` of a name: from its last dot, unless that dot starts or ends the name. */
  function Suffix(name: string): string
  {
    var i := LastDot(name);
    if 0 < i < |name| - 1 then name[i..] else ""
  }

  datatype Checked = Accepted(ext: string) | Rejected(status: nat, message: string)

  function CheckExtension(filename: string): Checked
  {
    var ext := Lower(Suffix(BaseName(filename)));
    if ext in ALLOWED_EXTENSIONS then Accepted(ext)
    else Rejected(400, "Unsupported file type: " + ext + ". Use CSV, Excel, or ODS.")
  }

  /** An extension: a dot, then at least one character that is not a dot. */
  predicate IsExtension(e: string) { |e| >= 2 && e[0] == '.' && forall k :: 0 < k < |e| ==> e[k] != '.' }

  lemma AllowedAreExtensions()
    ensures forall e :: e in ALLOWED_EXTENSIONS ==> IsExtension(e)
  {
  }

  /** A non-empty suffix is an extension that ends the name, after something. */
  lemma SuffixEnds(name: string)
    requires Suffix(name) != ""
    ensures |name| > |Suffix(name)| && EndsWith(Lower(name), Lower(Suffix(name)))
  {
    var i := LastDot(name);
    assert Lower(name)[i..] == Lower(name[i..]);
  }

  /** A name that ends, lower-cased, with an extension after something has that suffix. */
  lemma SuffixIs(name: string, e: string)
    requires IsExtension(e) && |name| > |e| && EndsWith(Lower(name), e)
    ensures Lower(Suffix(name)) == e
  {
    var j := |name| - |e|;
    var low := Lower(name);
    assert low[j..] == e;
    assert name[j] == '.' by { assert low[j] == e[0]; }
    forall k | j < k < |name| ensures name[k] != '.' {
      assert low[k] == e[k - j];
    }
    assert LastDot(name) == j;
    assert Lower(name[j..]) == low[j..];
  }

  /** A file is accepted exactly when its name, lower-cased, ends with one of the four extensions
   *  and has something before it. */
  lemma ExtensionSpec(filename: string)
    ensures CheckExtension(filename).Accepted? <==>
      exists e :: e in ALLOWED_EXTENSIONS && |BaseName(filename)| > |e| && EndsWith(Lower(BaseName(filename)), e)
  {
    var name := BaseName(filename);
    if CheckExtension(filename).Accepted? {
      AcceptedEnds(filename);
    }
    if e :| e in ALLOWED_EXTENSIONS && |name| > |e| && EndsWith(Lower(name), e) {
      EndsAccepted(filename, e);
    }
  }

  lemma AcceptedEnds(filename: string)
    requires CheckExtension(filename).Accepted?
    ensures var name := BaseName(filename);
      var e := Lower(Suffix(name));
      e in ALLOWED_EXTENSIONS && |name| > |e| && EndsWith(Lower(name), e)
  {
    var name := BaseName(filename);
    assert Lower(Suffix(name)) in ALLOWED_EXTENSIONS;
    assert Suffix(name) != "";
    SuffixEnds(name);
  }

  lemma EndsAccepted(filename: string, e: string)
    requires e in ALLOWED_EXTENSIONS && |BaseName(filename)| > |e| && EndsWith(Lower(BaseName(filename)), e)
    ensures CheckExtension(filename).Accepted?
  {
    AllowedAreExtensions();
    SuffixIs(BaseName(filename), e);
  }

  // ---------------------------------------------------------------------------------------------
  // Duplicate-mapping resolution in `confirm_mapping`

  /** The order in which fields claim a shared source column. */
  const MAPPING_PRIORITY: seq<string> := ["student_id", "student_name", "name", "class", "term", "year",
    "exam_name", "gender", "region", "school", "stream", "school_type"]

  /** The fields a wide sheet keeps as identifiers. */
  const WIDE_METADATA_FIELDS: set<string> := {"student_id", "name", "student_name", "class", "gender",
    "region", "term", "year", "school", "stream", "school_type", "exam_name"}

  /** A field's place in `MAPPING_PRIORITY`; an unlisted field ranks after every listed one. */
  function PriorityRank(t: string): (r: nat)
    ensures t in MAPPING_PRIORITY ==> r < |MAPPING_PRIORITY| && MAPPING_PRIORITY[r] == t
    ensures t !in MAPPING_PRIORITY <==> r == |MAPPING_PRIORITY| + 100
  {
    if t in MAPPING_PRIORITY then IndexOf(MAPPING_PRIORITY, t) else |MAPPING_PRIORITY| + 100
  }

  predicate RankLe(a: string, b: string) { PriorityRank(a) <= PriorityRank(b) }

  lemma RankLeTotal()
    ensures TotalPreorder(RankLe)
  {
  }

  /** A chosen source that takes part in the resolution: a string that is not blank. */
  predicate Shared(v: Option<string>) { v.Some? && Trim(v.value) != "" }

  /** The field names of a mapping, in order. */
  function Fields(mapping: Parser.Mapping): (r: seq<string>)
    ensures |r| == |mapping| && forall k :: 0 <= k < |r| ==> r[k] == mapping[k].0
  {
    seq(|mapping|, k requires 0 <= k < |mapping| => mapping[k].0)
  }

  /** `source_to_targets[src]`: the fields, in mapping order, that chose the non-blank `src`. */
  function TargetsOf(mapping: Parser.Mapping, src: string): (r: seq<string>)
    ensures |r| <= |mapping|
  {
    if mapping == [] then []
    else
      var last := mapping[|mapping| - 1];
      TargetsOf(mapping[..|mapping| - 1], src) + (if Shared(last.1) && last.1.value == src then [last.0] else [])
  }

  /** The field that keeps a shared source: the head of the fields sorted by priority. */
  function BestTarget(targets: seq<string>): string
    requires targets != []
  {
    SortBy(targets, RankLe)[0]
  }

  /** The resolved choice of field `t` with source `v`, among the fields `targets` that chose
   *  it: a field that lost its source to another gets "". */
  function ResolvedAmong(t: string, v: Option<string>, targets: seq<string>): Option<string>
  {
    if Shared(v) && |targets| > 1 && t != BestTarget(targets) then Some("") else v
  }

  function ResolvedValue(mapping: Parser.Mapping, k: int): Option<string>
    requires 0 <= k < |mapping|
  {
    var (t, v) := mapping[k];
    ResolvedAmong(t, v, if Shared(v) then TargetsOf(mapping, v.value) else [])
  }

  /** `resolved_mapping`: the same fields in the same order, the losers' choices emptied. */
  function ResolveMapping(mapping: Parser.Mapping): (r: Parser.Mapping)
    ensures |r| == |mapping|
    ensures forall k :: 0 <= k < |r| ==> r[k] == (mapping[k].0, ResolvedValue(mapping, k))
  {
    seq(|mapping|, k requires 0 <= k < |mapping| => (mapping[k].0, ResolvedValue(mapping, k)))
  }

  /** The first loop: `source_to_targets` built with `setdefault(source, []).append(target)`. */
  method SourceToTargets(mapping: Parser.Mapping) returns (st: map<string, seq<string>>)
    ensures forall src :: src in st <==> TargetsOf(mapping, src) != []
    ensures forall src :: src in st ==> st[src] == TargetsOf(mapping, src)
  {
    st := map[];
    for i := 0 to |mapping|
      invariant Inverted(st, mapping[..i])
    {
      var (target, source) := mapping[i];
      var st' := st;
      if Shared(source) {
        var prior := if source.value in st then st[source.value] else [];
        st' := st[source.value := prior + [target]];
      }
      InvertStep(st, st', mapping, i);
      st := st';
    }
    assert mapping[..|mapping|] == mapping;
  }

  /** `st` lists, for every shared source, the fields of `m` that choose it, and no other source. */
  ghost predicate Inverted(st: map<string, seq<string>>, m: Parser.Mapping)
  {
    && (forall src :: src in st <==> TargetsOf(m, src) != [])
    && (forall src :: src in st ==> st[src] == TargetsOf(m, src))
  }

  /** One step of `SourceToTargets`: entry `i` joins the list of its source when it is shared. */
  lemma InvertStep(st: map<string, seq<string>>, st': map<string, seq<string>>, mapping: Parser.Mapping, i: int)
    requires 0 <= i < |mapping| && Inverted(st, mapping[..i])
    requires var source := mapping[i].1;
      st' == if Shared(source) then st[source.value := (if source.value in st then st[source.value] else []) + [mapping[i].0]] else st
    ensures Inverted(st', mapping[..i + 1])
  {
    assert mapping[..i + 1][..i] == mapping[..i];
  }

  /** The fields in `TargetsOf(mapping, src)` are those whose choice is the non-blank `src`. */
  lemma {:induction false} TargetsOfSpec(mapping: Parser.Mapping, src: string)
    ensures forall t :: t in TargetsOf(mapping, src) <==>
      exists k :: 0 <= k < |mapping| && mapping[k].0 == t && Shared(mapping[k].1) && mapping[k].1.value == src
  {
    if mapping != [] {
      var p := mapping[..|mapping| - 1];
      TargetsOfSpec(p, src);
      assert forall k :: 0 <= k < |p| ==> p[k] == mapping[k];
    }
  }

  lemma TargetEntry(mapping: Parser.Mapping, source: string, t: string)
    requires t in TargetsOf(mapping, source)
    ensures exists i :: 0 <= i < |mapping| && mapping[i].0 == t && Shared(mapping[i].1) && mapping[i].1.value == source
  {
    TargetsOfSpec(mapping, source);
  }

  lemma EntryTarget(mapping: Parser.Mapping, k: int)
    requires 0 <= k < |mapping| && Shared(mapping[k].1)
    ensures mapping[k].0 in TargetsOf(mapping, mapping[k].1.value)
  {
    TargetsOfSpec(mapping, mapping[k].1.value);
  }

  /** `ResolvedValue` read off a built `source_to_targets` table. */
  function ResolvedWith(mapping: Parser.Mapping, st: map<string, seq<string>>, k: int): Option<string>
    requires 0 <= k < |mapping|
  {
    var (t, v) := mapping[k];
    ResolvedAmong(t, v, if Shared(v) && v.value in st then st[v.value] else [])
  }

  /** What the table holds once the sources in `done` are resolved. */
  function PartlyResolved(mapping: Parser.Mapping, st: map<string, seq<string>>, k: int, done: set<string>): Option<string>
    requires 0 <= k < |mapping|
  {
    var v := mapping[k].1;
    if Shared(v) && v.value in done then ResolvedWith(mapping, st, k) else v
  }

  /** `values` is the table with the sources in `done` resolved. */
  ghost predicate TableAt(mapping: Parser.Mapping, st: map<string, seq<string>>, values: map<string, Option<string>>,
                          done: set<string>)
  {
    forall k :: 0 <= k < |mapping| ==> mapping[k].0 in values && values[mapping[k].0] == PartlyResolved(mapping, st, k, done)
  }

  function WhileValue(mapping: Parser.Mapping, st: map<string, seq<string>>, k: int, done: set<string>,
                      source: string, cleared: seq<string>): Option<string>
    requires 0 <= k < |mapping|
  {
    if Shared(mapping[k].1) && mapping[k].1.value == source && mapping[k].0 in cleared then ResolvedWith(mapping, st, k)
    else PartlyResolved(mapping, st, k, done)
  }

  /** ... and, of the fields that chose `source`, the ones in `cleared` are resolved too. */
  ghost predicate TableWhile(mapping: Parser.Mapping, st: map<string, seq<string>>, values: map<string, Option<string>>,
                             done: set<string>, source: string, cleared: seq<string>)
  {
    forall k :: 0 <= k < |mapping| ==>
      mapping[k].0 in values && values[mapping[k].0] == WhileValue(mapping, st, k, done, source, cleared)
  }

  /** One step of the inner loop: field `targets[j]`, entry `i`, is resolved. */
  lemma ClearStep(mapping: Parser.Mapping, st: map<string, seq<string>>, values: map<string, Option<string>>,
                  done: set<string>, source: string, j: int, i: int)
    requires NoDups(Fields(mapping)) && source in st && |st[source]| > 1 && NoDups(st[source])
    requires 0 <= i < |mapping| && 0 <= j < |st[source]| && st[source][j] == mapping[i].0
    requires Shared(mapping[i].1) && mapping[i].1.value == source && source !in done
    requires TableWhile(mapping, st, values, done, source, st[source][..j])
    ensures var t := st[source][j];
      TableWhile(mapping, st, if t != BestTarget(st[source]) then values[t := Some("")] else values, done, source,
                 st[source][..j + 1])
  {
    FieldEntry(mapping, i);
    var targets := st[source];
    var t := mapping[i].0;
    var cleared := targets[..j];
    assert targets[..j + 1] == cleared + [t];
    assert t !in cleared;
    var next := if t != BestTarget(targets) then values[t := Some("")] else values;
    forall k | 0 <= k < |mapping|
      ensures mapping[k].0 in next && next[mapping[k].0] == WhileValue(mapping, st, k, done, source, cleared + [t])
    {
      if k != i {
        assert mapping[k].0 != t;
        assert mapping[k].0 in cleared + [t] <==> mapping[k].0 in cleared;
      }
    }
  }

  /** The fields that chose one source are distinct, as all fields are. */
  lemma {:induction false} TargetsNoDups(mapping: Parser.Mapping, source: string)
    requires NoDups(Fields(mapping))
    ensures NoDups(TargetsOf(mapping, source))
  {
    if mapping != [] {
      var p := mapping[..|mapping| - 1];
      assert Fields(p) == Fields(mapping)[..|p|];
      TargetsNoDups(p, source);
      TargetsOfSpec(p, source);
      var last := mapping[|mapping| - 1];
      if Shared(last.1) && last.1.value == source && last.0 in TargetsOf(p, source) {
        var k :| 0 <= k < |p| && p[k].0 == last.0 && Shared(p[k].1) && p[k].1.value == source;
        assert Fields(mapping)[k] == Fields(mapping)[|p|];
      }
    }
  }

  /** Fields are unique, so a field names one entry. */
  lemma FieldEntry(mapping: Parser.Mapping, i: int)
    requires NoDups(Fields(mapping)) && 0 <= i < |mapping|
    ensures forall k :: 0 <= k < |mapping| && mapping[k].0 == mapping[i].0 ==> k == i
  {
    var f := Fields(mapping);
    assert forall k :: 0 <= k < |mapping| ==> f[k] == mapping[k].0;
  }

  /** The fields in a `source_to_targets` entry chose that source. */
  ghost predicate BuiltFrom(mapping: Parser.Mapping, st: map<string, seq<string>>)
  {
    forall src :: src in st ==> st[src] == TargetsOf(mapping, src)
  }

  /** The inner loop: every field that chose `source`, except the best, is set to "". */
  method ClearLosers(mapping: Parser.Mapping, st: map<string, seq<string>>, source: string,
                     values: map<string, Option<string>>, ghost done: set<string>)
    returns (cleared: map<string, Option<string>>)
    requires NoDups(Fields(mapping)) && BuiltFrom(mapping, st) && source in st && |st[source]| > 1
    requires source !in done && TableAt(mapping, st, values, done)
    ensures TableAt(mapping, st, cleared, done + {source})
  {
    var targets := st[source];
    var best := SortBy(targets, RankLe)[0];
    TargetsNoDups(mapping, source);
    cleared := values;
    assert targets[..0] == [];
    for j := 0 to |targets|
      invariant TableWhile(mapping, st, cleared, done, source, targets[..j])
    {
      var t := targets[j];
      TargetEntry(mapping, source, t);
      var i :| 0 <= i < |mapping| && mapping[i].0 == t && Shared(mapping[i].1) && mapping[i].1.value == source;
      ClearStep(mapping, st, cleared, done, source, j, i);
      if t != best {
        cleared := cleared[t := Some("")];
      }
    }
    assert targets[..|targets|] == targets;
    WhileDone(mapping, st, cleared, done, source);
  }

  /** Once every field that chose `source` is cleared, `source` is done. */
  lemma WhileDone(mapping: Parser.Mapping, st: map<string, seq<string>>, values: map<string, Option<string>>,
                  done: set<string>, source: string)
    requires BuiltFrom(mapping, st) && source in st
    requires TableWhile(mapping, st, values, done, source, st[source])
    ensures TableAt(mapping, st, values, done + {source})
  {
    forall k | 0 <= k < |mapping|
      ensures mapping[k].0 in values && values[mapping[k].0] == PartlyResolved(mapping, st, k, done + {source})
    {
      if Shared(mapping[k].1) && mapping[k].1.value == source {
        EntryTarget(mapping, k);
      }
    }
  }

  /** With a single field, a source resolves to itself. */
  lemma SoleTarget(mapping: Parser.Mapping, st: map<string, seq<string>>, values: map<string, Option<string>>,
                   done: set<string>, source: string)
    requires source in st && |st[source]| <= 1 && TableAt(mapping, st, values, done)
    ensures TableAt(mapping, st, values, done + {source})
  {
  }

  /** The table as the mapping's entries, in the mapping's order. */
  function FromTable(mapping: Parser.Mapping, values: map<string, Option<string>>): Parser.Mapping
    requires forall k :: 0 <= k < |mapping| ==> mapping[k].0 in values
  {
    seq(|mapping|, k requires 0 <= k < |mapping| => (mapping[k].0, values[mapping[k].0]))
  }

  /** `dict(col_mapping)`. */
  function Dict(mapping: Parser.Mapping): map<string, Option<string>>
    requires NoDups(Fields(mapping))
  {
    map k | 0 <= k < |mapping| :: mapping[k].0 := mapping[k].1
  }

  lemma InitialTable(mapping: Parser.Mapping, st: map<string, seq<string>>)
    requires NoDups(Fields(mapping))
    ensures TableAt(mapping, st, Dict(mapping), {})
  {
    var values := Dict(mapping);
    forall k | 0 <= k < |mapping| ensures mapping[k].0 in values && values[mapping[k].0] == mapping[k].1 {
      FieldEntry(mapping, k);
    }
  }

  /** A resolved entry whose source is read off a built table holds its resolved choice. */
  lemma AllDoneAt(mapping: Parser.Mapping, st: map<string, seq<string>>, k: int)
    requires 0 <= k < |mapping|
    requires Shared(mapping[k].1) ==> mapping[k].1.value in st && st[mapping[k].1.value] == TargetsOf(mapping, mapping[k].1.value)
    ensures PartlyResolved(mapping, st, k, st.Keys) == ResolvedValue(mapping, k)
  {
  }

  /** A built table has an entry for the source of every entry that shares one. */
  lemma SourceKey(mapping: Parser.Mapping, st: map<string, seq<string>>, k: int)
    requires BuiltFrom(mapping, st) && (forall src :: src in st <==> TargetsOf(mapping, src) != [])
    requires 0 <= k < |mapping|
    ensures Shared(mapping[k].1) ==> mapping[k].1.value in st && st[mapping[k].1.value] == TargetsOf(mapping, mapping[k].1.value)
  {
    if Shared(mapping[k].1) {
      EntryTarget(mapping, k);
    }
  }

  /** Every shared source of `mapping` has its fields in the table `st`. */
  ghost predicate Keyed(mapping: Parser.Mapping, st: map<string, seq<string>>)
  {
    forall k :: 0 <= k < |mapping| && Shared(mapping[k].1) ==>
      mapping[k].1.value in st && st[mapping[k].1.value] == TargetsOf(mapping, mapping[k].1.value)
  }

  lemma BuiltKeyed(mapping: Parser.Mapping, st: map<string, seq<string>>)
    requires BuiltFrom(mapping, st) && (forall src :: src in st <==> TargetsOf(mapping, src) != [])
    ensures Keyed(mapping, st)
  {
    forall k | 0 <= k < |mapping| && Shared(mapping[k].1)
      ensures mapping[k].1.value in st && st[mapping[k].1.value] == TargetsOf(mapping, mapping[k].1.value)
    {
      SourceKey(mapping, st, k);
    }
  }

  /** Once every source is resolved, each entry holds its resolved choice. */
  lemma AllDoneEntries(mapping: Parser.Mapping, st: map<string, seq<string>>, values: map<string, Option<string>>)
    requires Keyed(mapping, st) && TableAt(mapping, st, values, st.Keys)
    ensures forall k :: 0 <= k < |mapping| ==> mapping[k].0 in values && values[mapping[k].0] == ResolvedValue(mapping, k)
  {
    forall k | 0 <= k < |mapping| ensures mapping[k].0 in values && values[mapping[k].0] == ResolvedValue(mapping, k) {
      AllDoneAt(mapping, st, k);
    }
  }

  /** A table holding every entry's resolved choice is `ResolveMapping`'s. */
  lemma AllDone(mapping: Parser.Mapping, values: map<string, Option<string>>)
    requires forall k :: 0 <= k < |mapping| ==> mapping[k].0 in values && values[mapping[k].0] == ResolvedValue(mapping, k)
    ensures FromTable(mapping, values) == ResolveMapping(mapping)
  {
  }

  /** Both loops of the resolution: for each source chosen by several fields, every field but the
   *  best one is set to "". */
  method ResolveDuplicates(mapping: Parser.Mapping) returns (resolved: Parser.Mapping)
    requires NoDups(Fields(mapping))
    ensures resolved == ResolveMapping(mapping)
  {
    var st := SourceToTargets(mapping);
    var values := Dict(mapping);
    InitialTable(mapping, st);
    var sources := st.Keys;
    ghost var done: set<string> := {};
    while sources != {}
      invariant sources <= st.Keys && done == st.Keys - sources
      invariant TableAt(mapping, st, values, done)
      decreases sources
    {
      var source :| source in sources;
      if |st[source]| > 1 {
        values := ClearLosers(mapping, st, source, values, done);
      } else {
        SoleTarget(mapping, st, values, done, source);
      }
      sources := sources - {source};
      done := done + {source};
    }
    BuiltKeyed(mapping, st);
    AllDoneEntries(mapping, st, values);
    AllDone(mapping, values);
    resolved := FromTable(mapping, values);
  }

  /* Properties of the resolution. */

  /** Entry `k` chose the non-blank source `src`. */
  predicate HasSource(mapping: Parser.Mapping, k: int, src: string)
    requires 0 <= k < |mapping|
  {
    Shared(mapping[k].1) && mapping[k].1.value == src
  }

  lemma {:induction false} TargetsAppend(a: Parser.Mapping, b: Parser.Mapping, src: string)
    ensures TargetsOf(a + b, src) == TargetsOf(a, src) + TargetsOf(b, src)
  {
    if b == [] {
      assert a + b == a;
    } else {
      var b' := b[..|b| - 1];
      assert (a + b)[..|a + b| - 1] == a + b';
      TargetsAppend(a, b', src);
    }
  }

  /** How many earlier entries chose `src`: the place of entry `k` among `TargetsOf(mapping, src)`. */
  function Pos(mapping: Parser.Mapping, src: string, k: int): nat
    requires 0 <= k <= |mapping|
  {
    |TargetsOf(mapping[..k], src)|
  }

  lemma PosAt(mapping: Parser.Mapping, src: string, k: int)
    requires 0 <= k < |mapping| && HasSource(mapping, k, src)
    ensures Pos(mapping, src, k) < |TargetsOf(mapping, src)|
    ensures TargetsOf(mapping, src)[Pos(mapping, src, k)] == mapping[k].0
  {
    assert mapping == mapping[..k + 1] + mapping[k + 1..];
    TargetsAppend(mapping[..k + 1], mapping[k + 1..], src);
    assert mapping[..k + 1][..k] == mapping[..k];
  }

  lemma PosOrder(mapping: Parser.Mapping, src: string, j: int, k: int)
    requires 0 <= j < k < |mapping| && HasSource(mapping, j, src)
    ensures Pos(mapping, src, j) < Pos(mapping, src, k)
  {
    assert mapping[..k] == mapping[..j + 1] + mapping[j + 1..k];
    TargetsAppend(mapping[..j + 1], mapping[j + 1..k], src);
    assert mapping[..j + 1][..j] == mapping[..j];
  }

  /** Position `p` of `targets` holds the first of the fields of least priority rank. */
  predicate FirstMinAt(targets: seq<string>, p: int)
    requires 0 <= p < |targets|
  {
    forall x :: 0 <= x < |targets| ==>
      PriorityRank(targets[p]) <= PriorityRank(targets[x]) && (x < p ==> PriorityRank(targets[p]) < PriorityRank(targets[x]))
  }

  /** Sorting by rank and taking the head picks the first field of least rank. */
  lemma BestIsFirstMin(targets: seq<string>, p: int)
    requires NoDups(targets) && 0 <= p < |targets|
    ensures (|targets| <= 1 || targets[p] == BestTarget(targets)) <==> FirstMinAt(targets, p)
  {
    RankLeTotal();
    SortHead(targets, RankLe);
    var best := BestTarget(targets);
    var i :| 0 <= i < |targets| && targets[i] == best && forall x :: 0 <= x < i ==> !RankLe(targets[x], best);
    assert FirstMinAt(targets, i);
  }

  /** Entry `k` is the first, in mapping order, of least rank among the entries that chose its source. */
  predicate FirstBest(mapping: Parser.Mapping, k: int)
    requires 0 <= k < |mapping| && Shared(mapping[k].1)
  {
    forall j :: 0 <= j < |mapping| && HasSource(mapping, j, mapping[k].1.value) ==>
      PriorityRank(mapping[k].0) <= PriorityRank(mapping[j].0)
      && (j < k ==> PriorityRank(mapping[k].0) < PriorityRank(mapping[j].0))
  }

  lemma FirstBestAt(mapping: Parser.Mapping, k: int)
    requires NoDups(Fields(mapping)) && 0 <= k < |mapping| && Shared(mapping[k].1)
    ensures var src := mapping[k].1.value;
      Pos(mapping, src, k) < |TargetsOf(mapping, src)| &&
      (FirstBest(mapping, k) <==> FirstMinAt(TargetsOf(mapping, src), Pos(mapping, src, k)))
  {
    var src := mapping[k].1.value;
    PosAt(mapping, src, k);
    if FirstBest(mapping, k) {
      FirstBestIsMin(mapping, k);
    }
    if FirstMinAt(TargetsOf(mapping, src), Pos(mapping, src, k)) {
      MinIsFirstBest(mapping, k);
    }
  }

  lemma FirstBestIsMin(mapping: Parser.Mapping, k: int)
    requires NoDups(Fields(mapping)) && 0 <= k < |mapping| && Shared(mapping[k].1) && FirstBest(mapping, k)
    requires Pos(mapping, mapping[k].1.value, k) < |TargetsOf(mapping, mapping[k].1.value)|
    ensures FirstMinAt(TargetsOf(mapping, mapping[k].1.value), Pos(mapping, mapping[k].1.value, k))
  {
    var src := mapping[k].1.value;
    var T := TargetsOf(mapping, src);
    PosAt(mapping, src, k);
    var p := Pos(mapping, src, k);
    forall x | 0 <= x < |T|
      ensures PriorityRank(T[p]) <= PriorityRank(T[x]) && (x < p ==> PriorityRank(T[p]) < PriorityRank(T[x]))
    {
      TargetRank(mapping, k, x);
    }
  }

  /** The field at position `x` of the source's list is the entry whose place in that list is `x`. */
  lemma TargetAt(mapping: Parser.Mapping, src: string, x: int) returns (j: int)
    requires NoDups(Fields(mapping)) && 0 <= x < |TargetsOf(mapping, src)|
    ensures 0 <= j < |mapping| && HasSource(mapping, j, src) && Pos(mapping, src, j) == x
  {
    var T := TargetsOf(mapping, src);
    TargetsNoDups(mapping, src);
    TargetEntry(mapping, src, T[x]);
    j :| 0 <= j < |mapping| && mapping[j].0 == T[x] && Shared(mapping[j].1) && mapping[j].1.value == src;
    PosAt(mapping, src, j);
  }

  /** The field at position `x` of the source's list is no better than a first-best entry `k`. */
  lemma TargetRank(mapping: Parser.Mapping, k: int, x: int)
    requires NoDups(Fields(mapping)) && 0 <= k < |mapping| && Shared(mapping[k].1) && FirstBest(mapping, k)
    requires Pos(mapping, mapping[k].1.value, k) < |TargetsOf(mapping, mapping[k].1.value)|
    requires 0 <= x < |TargetsOf(mapping, mapping[k].1.value)|
    ensures var T, p := TargetsOf(mapping, mapping[k].1.value), Pos(mapping, mapping[k].1.value, k);
      PriorityRank(T[p]) <= PriorityRank(T[x]) && (x < p ==> PriorityRank(T[p]) < PriorityRank(T[x]))
  {
    var src := mapping[k].1.value;
    PosAt(mapping, src, k);
    var j := TargetAt(mapping, src, x);
    PosAt(mapping, src, j);
    if j < k { PosOrder(mapping, src, j, k); }
    if k < j { PosOrder(mapping, src, k, j); }
    assert HasSource(mapping, j, src);
  }

  lemma MinIsFirstBest(mapping: Parser.Mapping, k: int)
    requires 0 <= k < |mapping| && Shared(mapping[k].1)
    requires Pos(mapping, mapping[k].1.value, k) < |TargetsOf(mapping, mapping[k].1.value)|
    requires FirstMinAt(TargetsOf(mapping, mapping[k].1.value), Pos(mapping, mapping[k].1.value, k))
    ensures FirstBest(mapping, k)
  {
    var src := mapping[k].1.value;
    PosAt(mapping, src, k);
    forall j | 0 <= j < |mapping| && HasSource(mapping, j, src)
      ensures PriorityRank(mapping[k].0) <= PriorityRank(mapping[j].0)
        && (j < k ==> PriorityRank(mapping[k].0) < PriorityRank(mapping[j].0))
    {
      PosAt(mapping, src, j);
      if j < k { PosOrder(mapping, src, j, k); }
    }
  }

  /** What the resolution does to one entry: an entry without a non-blank source keeps its
   *  choice; one with a source keeps it exactly when it is the first of least priority rank
   *  among the entries that chose the same source, and otherwise gets "". */
  lemma ResolveSpec(mapping: Parser.Mapping, k: int)
    requires NoDups(Fields(mapping)) && 0 <= k < |mapping|
    ensures ResolveMapping(mapping)[k].0 == mapping[k].0
    ensures !Shared(mapping[k].1) ==> ResolveMapping(mapping)[k].1 == mapping[k].1
    ensures Shared(mapping[k].1) ==>
      (ResolveMapping(mapping)[k].1 == mapping[k].1 <==> FirstBest(mapping, k))
      && (ResolveMapping(mapping)[k].1 != mapping[k].1 ==> ResolveMapping(mapping)[k].1 == Some(""))
  {
    if Shared(mapping[k].1) {
      var src := mapping[k].1.value;
      FirstBestAt(mapping, k);
      TargetsNoDups(mapping, src);
      PosAt(mapping, src, k);
      BestIsFirstMin(TargetsOf(mapping, src), Pos(mapping, src, k));
    }
  }

  /** Every non-blank source chosen by some field is kept by exactly one of the fields that chose it. */
  lemma OneKeeps(mapping: Parser.Mapping, src: string, k0: int)
    requires NoDups(Fields(mapping)) && 0 <= k0 < |mapping| && HasSource(mapping, k0, src)
    ensures exists k :: 0 <= k < |mapping| && HasSource(mapping, k, src) && ResolveMapping(mapping)[k].1 == mapping[k].1
    ensures forall j, k ::
      (0 <= j < |mapping| && 0 <= k < |mapping| && HasSource(mapping, j, src) && HasSource(mapping, k, src)
       && ResolveMapping(mapping)[j].1 == mapping[j].1 && ResolveMapping(mapping)[k].1 == mapping[k].1) ==> j == k
  {
    var T := TargetsOf(mapping, src);
    EntryTarget(mapping, k0);
    TargetsNoDups(mapping, src);
    TargetsOfSpec(mapping, src);
    RankLeTotal();
    SortHead(T, RankLe);
    var best := SortBy(T, RankLe)[0];
    var i :| 0 <= i < |T| && T[i] == best && forall x :: 0 <= x < i ==> !RankLe(T[x], best);
    assert T[i] in T;
    var k :| 0 <= k < |mapping| && mapping[k].0 == T[i] && HasSource(mapping, k, src);
    PosAt(mapping, src, k);
    BestIsFirstMin(T, Pos(mapping, src, k));
    FirstBestAt(mapping, k);
    ResolveSpec(mapping, k);
    forall j, k | 0 <= j < |mapping| && 0 <= k < |mapping| && HasSource(mapping, j, src) && HasSource(mapping, k, src)
      && ResolveMapping(mapping)[j].1 == mapping[j].1 && ResolveMapping(mapping)[k].1 == mapping[k].1
      ensures j == k
    {
      ResolveSpec(mapping, j);
      ResolveSpec(mapping, k);
    }
  }

  /** After the resolution no two fields share a non-blank source. */
  lemma ResolvedUnique(mapping: Parser.Mapping, j: int, k: int)
    requires NoDups(Fields(mapping)) && 0 <= j < |mapping| && 0 <= k < |mapping| && j != k
    requires Shared(ResolveMapping(mapping)[j].1)
    ensures ResolveMapping(mapping)[k].1 != ResolveMapping(mapping)[j].1
  {
    var r := ResolveMapping(mapping);
    ResolveSpec(mapping, j);
    ResolveSpec(mapping, k);
    assert Trim("") == "";
    if r[k].1 == r[j].1 {
      OneKeeps(mapping, r[j].1.value, j);
    }
  }

  /** A field that alone chose its source keeps it. */
  lemma SoleChoiceKeeps(mapping: Parser.Mapping, k: int)
    requires NoDups(Fields(mapping)) && 0 <= k < |mapping|
    requires forall j :: 0 <= j < |mapping| && j != k ==> mapping[j].1 != mapping[k].1
    ensures ResolveMapping(mapping)[k] == mapping[k]
  {
    ResolveSpec(mapping, k);
  }

  // ---------------------------------------------------------------------------------------------
  // The column renaming in `confirm_mapping`

  /** A choice that renames a column: a non-empty string naming one of the columns. */
  predicate Renamed(v: Option<string>, columns: seq<string>) { v.Some? && v.value != "" && v.value in columns }

  /** `{v: k for k, v in mapping.items() if v and v in columns}`: a later field wins a column. */
  function RenameMap(mapping: Parser.Mapping, columns: seq<string>): map<string, string>
  {
    if mapping == [] then map[]
    else
      var (t, v) := mapping[|mapping| - 1];
      var m := RenameMap(mapping[..|mapping| - 1], columns);
      if Renamed(v, columns) then m[v.value := t] else m
  }

  /** Entry `k` renames column `c`. */
  predicate RenamesTo(mapping: Parser.Mapping, columns: seq<string>, k: int, c: string)
    requires 0 <= k < |mapping|
  {
    Renamed(mapping[k].1, columns) && mapping[k].1.value == c
  }

  /** A column is renamed exactly when some field chose it, and it is renamed after the last such field. */
  lemma {:induction false} RenameMapSpec(mapping: Parser.Mapping, columns: seq<string>, c: string)
    ensures c in RenameMap(mapping, columns) <==> exists k :: 0 <= k < |mapping| && RenamesTo(mapping, columns, k, c)
    ensures c in RenameMap(mapping, columns) ==>
      exists k :: 0 <= k < |mapping| && RenamesTo(mapping, columns, k, c) && RenameMap(mapping, columns)[c] == mapping[k].0
        && forall j :: k < j < |mapping| ==> !RenamesTo(mapping, columns, j, c)
  {
    if mapping != [] {
      var p := mapping[..|mapping| - 1];
      RenameMapSpec(p, columns, c);
      assert forall k :: 0 <= k < |p| ==> p[k] == mapping[k];
      var n := |mapping| - 1;
      if RenamesTo(mapping, columns, n, c) {
        assert RenameMap(mapping, columns)[c] == mapping[n].0;
      } else {
        assert c in RenameMap(mapping, columns) <==> c in RenameMap(p, columns);
        if c in RenameMap(p, columns) {
          assert RenameMap(mapping, columns)[c] == RenameMap(p, columns)[c];
          var k :| 0 <= k < |p| && RenamesTo(p, columns, k, c) && RenameMap(p, columns)[c] == p[k].0
            && forall j :: k < j < |p| ==> !RenamesTo(p, columns, j, c);
          assert RenamesTo(mapping, columns, k, c);
          forall j | k < j < |mapping| ensures !RenamesTo(mapping, columns, j, c) {
            if j < |p| { assert !RenamesTo(p, columns, j, c); }
          }
        }
        if exists k :: 0 <= k < |mapping| && RenamesTo(mapping, columns, k, c) {
          var k :| 0 <= k < |mapping| && RenamesTo(mapping, columns, k, c);
          assert RenamesTo(p, columns, k, c);
        }
      }
    }
  }

  /** With distinct fields, no two columns are renamed to the same field. */
  lemma RenameInjective(mapping: Parser.Mapping, columns: seq<string>, a: string, b: string)
    requires NoDups(Fields(mapping))
    requires a in RenameMap(mapping, columns) && b in RenameMap(mapping, columns) && a != b
    ensures RenameMap(mapping, columns)[a] != RenameMap(mapping, columns)[b]
  {
    RenameMapSpec(mapping, columns, a);
    RenameMapSpec(mapping, columns, b);
    var i :| 0 <= i < |mapping| && RenamesTo(mapping, columns, i, a) && RenameMap(mapping, columns)[a] == mapping[i].0;
    var j :| 0 <= j < |mapping| && RenamesTo(mapping, columns, j, b) && RenameMap(mapping, columns)[b] == mapping[j].0;
    var f := Fields(mapping);
    assert f[i] == mapping[i].0 && f[j] == mapping[j].0;
  }

  /** After the resolution, a column that several fields chose is renamed to the field that kept it. */
  lemma RenameResolved(mapping: Parser.Mapping, columns: seq<string>, k: int)
    requires NoDups(Fields(mapping)) && 0 <= k < |mapping| && Shared(mapping[k].1) && FirstBest(mapping, k)
    requires mapping[k].1.value in columns
    ensures mapping[k].1.value in RenameMap(ResolveMapping(mapping), columns)
    ensures RenameMap(ResolveMapping(mapping), columns)[mapping[k].1.value] == mapping[k].0
  {
    var src := mapping[k].1.value;
    var r := ResolveMapping(mapping);
    ResolveSpec(mapping, k);
    assert Trim("") == "";
    assert RenamesTo(r, columns, k, src);
    RenameMapSpec(r, columns, src);
    OneKeeps(mapping, src, k);
    forall j | 0 <= j < |r| && RenamesTo(r, columns, j, src) ensures j == k {
      ResolveSpec(mapping, j);
    }
  }

  /** `wide_mapping`: the identifier fields whose choice names a column of the sheet, in mapping order. */
  function WideMapping(mapping: Parser.Mapping, columns: seq<string>): (r: Parser.Mapping)
    ensures forall e :: e in r <==> e in mapping && e.0 in WIDE_METADATA_FIELDS && Renamed(e.1, columns)
  {
    if mapping == [] then []
    else
      var e := mapping[|mapping| - 1];
      WideMapping(mapping[..|mapping| - 1], columns) + (if e.0 in WIDE_METADATA_FIELDS && Renamed(e.1, columns) then [e] else [])
  }

  /** Every column that a field chose is among the identifier columns of the reshaped table. */
  lemma {:induction false} MappedHas(mapping: Parser.Mapping, columns: seq<string>, k: int)
    requires 0 <= k < |mapping| && Renamed(mapping[k].1, columns)
    ensures mapping[k].1.value in Parser.MappedColumns(mapping, columns)
  {
    if k < |mapping| - 1 {
      var p := mapping[..|mapping| - 1];
      assert p[k] == mapping[k];
      MappedHas(p, columns, k);
    }
  }

  /** The two renaming paths of `confirm_mapping`: a wide sheet is reshaped with `wide_mapping` and
   *  its identifier columns renamed; a long one has every chosen column renamed. */
  function ConfirmRename(mapping: Parser.Mapping, wide: bool, f: Frame): (Frame, map<string, string>)
  {
    if wide then
      var wm := WideMapping(mapping, f.columns);
      var g := Parser.ConvertWideToLong(f, wm);
      (g, RenameMap(wm, g.columns))
    else (f, RenameMap(mapping, f.columns))
  }

  /** On a wide sheet, the columns renamed are exactly those chosen for an identifier field, and
   *  each is renamed to an identifier field. */
  lemma WideRenameSpec(mapping: Parser.Mapping, f: Frame, c: string)
    ensures c in ConfirmRename(mapping, true, f).1 <==>
      exists k :: 0 <= k < |mapping| && mapping[k].0 in WIDE_METADATA_FIELDS && RenamesTo(mapping, f.columns, k, c)
    ensures c in ConfirmRename(mapping, true, f).1 ==> ConfirmRename(mapping, true, f).1[c] in WIDE_METADATA_FIELDS
  {
    var wm := WideMapping(mapping, f.columns);
    var g := Parser.ConvertWideToLong(f, wm);
    RenameMapSpec(wm, g.columns, c);
    RenameMapSpec(wm, f.columns, c);
    if exists k :: 0 <= k < |mapping| && mapping[k].0 in WIDE_METADATA_FIELDS && RenamesTo(mapping, f.columns, k, c) {
      var k :| 0 <= k < |mapping| && mapping[k].0 in WIDE_METADATA_FIELDS && RenamesTo(mapping, f.columns, k, c);
      assert mapping[k] in wm;
      var i :| 0 <= i < |wm| && wm[i] == mapping[k];
      MappedHas(wm, f.columns, i);
      assert c in g.columns;
      assert RenamesTo(wm, g.columns, i, c);
    }
    if c in RenameMap(wm, g.columns) {
      var i :| 0 <= i < |wm| && RenamesTo(wm, g.columns, i, c) && RenameMap(wm, g.columns)[c] == wm[i].0;
      assert wm[i] in wm;
      var k :| 0 <= k < |mapping| && mapping[k] == wm[i];
      assert RenamesTo(mapping, f.columns, k, c);
    }
  }
}
