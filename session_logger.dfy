/**
 * The JSON-lines session log: one file per calendar day in a log directory,
 * one encoded `SessionData` per line, and rotation that keeps the four newest
 * files once the day's file has grown to 10 MiB. The directory is a map
 * from file name to creation time and contents; the JSON encoder is a
 * parameter.
 */
module Logging {
  import opened Wrappers
  import opened Numbers
  import opened SubGoals
  import opened Session

  const MaxFileSize: nat := 10 * 1024 * 1024
  const MaxLogFiles: nat := 5
  const LogExtension: string := ".jsonl"

  /** A file of the log directory; `created` is `None` when the creation date cannot be read. */
  datatype LogFile = LogFile(created: Option<int>, contents: string)

  type Directory = map<string, LogFile>

  /** A day of the local calendar, as `DateFormatter` splits `Date()`. */
  datatype CalendarDate = CalendarDate(year: nat, month: nat, day: nat)

  predicate ValidDate(d: CalendarDate) {
    d.year < 10000 && 1 <= d.month <= 12 && 1 <= d.day <= 31
  }

  /** `getCurrentLogFileName`: "sessions-yyyy-MM-dd.jsonl". */
  function LogFileName(d: CalendarDate): string {
    "sessions-" + ZeroPad(d.year, 4) + "-" + ZeroPad(d.month, 2) + "-" + ZeroPad(d.day, 2) + LogExtension
  }

  /** Hidden files, skipped by the directory listing. */
  predicate IsHidden(name: string) {
    |name| > 0 && name[0] == '.'
  }

  /** A visible file whose path extension is "jsonl". */
  predicate IsLogFileName(name: string) {
    !IsHidden(name) && |name| > |LogExtension| && name[|name| - |LogExtension|..] == LogExtension
  }

  /**
   * Creation-date order: a file with a date is newer than one without
   * (which counts as the distant past), and dates compare as numbers.
   */
  predicate NotOlder(a: Option<int>, b: Option<int>) {
    b.None? || (a.Some? && a.value >= b.value)
  }

  predicate NoDuplicates(names: seq<string>) {
    forall i, j :: 0 <= i < j < |names| ==> names[i] != names[j]
  }

  /** `names` lists files of `dir` from newest to oldest. */
  predicate NewestFirst(dir: Directory, names: seq<string>) {
    (forall i :: 0 <= i < |names| ==> names[i] in dir)
    && forall i, j :: 0 <= i < j < |names| ==> NotOlder(dir[names[i]].created, dir[names[j]].created)
  }

  /**
   * What `getLogFiles` may return: nothing when the directory cannot be
   * listed, else every log file once, newest first. Files with equal dates
   * may come in any order.
   */
  predicate IsLogListing(dir: Directory, listable: bool, names: seq<string>) {
    if !listable then names == []
    else
      (forall n :: n in names ==> n in dir && IsLogFileName(n))
      && (forall n :: n in dir && IsLogFileName(n) ==> n in names)
      && NoDuplicates(names) && NewestFirst(dir, names)
  }

  /** The directory after rotation over `listing`: from five files on, all but the four newest are deleted. */
  function Rotated(dir: Directory, listing: seq<string>): Directory {
    if |listing| >= MaxLogFiles then dir - Beyond(listing, |listing|) else dir
  }

  /** The listed files from position `MaxLogFiles - 1` up to `end`: those rotation deletes. */
  function Beyond(listing: seq<string>, end: nat): set<string>
    requires end <= |listing|
  {
    set k | MaxLogFiles - 1 <= k < end :: listing[k]
  }

  /** The UTF-8 size in bytes. */
  function Utf8Size(s: string): nat {
    if s == [] then 0
    else
      var c := s[0] as int;
      (if c < 0x80 then 1 else if c < 0x800 then 2 else if c < 0x10000 then 3 else 4) + Utf8Size(s[1..])
  }

  /** Rotation is due when the day's file exists and has reached the size limit. */
  predicate ShouldRotate(dir: Directory, name: string) {
    name in dir && Utf8Size(dir[name].contents) >= MaxFileSize
  }

  /** `line` appended to the file `name`, which is created at `now` if it does not exist. */
  function WithLine(dir: Directory, name: string, line: string, now: int): Directory {
    dir[name := if name in dir then dir[name].(contents := dir[name].contents + line)
                else LogFile(Some(now), line)]
  }

  // ---------------------------------------------------------------------------
  // Properties

  /** Where the three date fields sit in a file name built from fields of widths 4, 2 and 2. */
  lemma NameFields(y: string, m: string, d: string)
    requires |y| == 4 && |m| == 2 && |d| == 2
    ensures var n := "sessions-" + y + "-" + m + "-" + d + LogExtension;
      |n| == 25 && n[9..13] == y && n[14..16] == m && n[17..19] == d
      && n[0] == 's' && n[19..] == LogExtension
  {
  }

  /** The day's file name is a visible ".jsonl" name, and distinct days have distinct files. */
  lemma LogFileNameSpec(d1: CalendarDate, d2: CalendarDate)
    requires ValidDate(d1) && ValidDate(d2)
    ensures IsLogFileName(LogFileName(d1))
    ensures LogFileName(d1) == LogFileName(d2) <==> d1 == d2
  {
    ZeroPadExact(d1.year, 4);
    ZeroPadExact(d1.month, 2);
    ZeroPadExact(d1.day, 2);
    ZeroPadExact(d2.year, 4);
    ZeroPadExact(d2.month, 2);
    ZeroPadExact(d2.day, 2);
    NameFields(ZeroPad(d1.year, 4), ZeroPad(d1.month, 2), ZeroPad(d1.day, 2));
    NameFields(ZeroPad(d2.year, 4), ZeroPad(d2.month, 2), ZeroPad(d2.day, 2));
  }

  /** Every character takes one to four bytes. */
  lemma {:induction false} Utf8SizeBounds(s: string)
    ensures |s| <= Utf8Size(s) <= 4 * |s|
  {
    if s != [] {
      Utf8SizeBounds(s[1..]);
    }
  }

  /**
   * Rotation over a listing of at least five files keeps exactly the four
   * newest log files, each no older than any deleted one, and deletes
   * nothing else; below five it deletes nothing.
   */
  lemma RotationKeepsNewest(dir: Directory, listing: seq<string>)
    requires IsLogListing(dir, true, listing)
    ensures |listing| < MaxLogFiles ==> Rotated(dir, listing) == dir
    ensures |listing| >= MaxLogFiles ==>
      var kept := Rotated(dir, listing);
      (forall n :: n in kept <==> n in dir && (!IsLogFileName(n) || n in listing[..4]))
      && (forall n :: n in kept ==> kept[n] == dir[n])
      && |set n | n in kept && IsLogFileName(n)| == 4
      && (forall i, j :: 0 <= i < 4 <= j < |listing| ==>
            NotOlder(dir[listing[i]].created, dir[listing[j]].created))
  {
    if |listing| >= MaxLogFiles {
      var kept := Rotated(dir, listing);
      assert forall n :: n in Beyond(listing, |listing|) <==> n in listing[4..] by {
        forall n | n in listing[4..]
          ensures n in Beyond(listing, |listing|)
        {
          var k :| 0 <= k < |listing[4..]| && listing[4..][k] == n;
          assert listing[4 + k] == n;
        }
      }
      forall n
        ensures n in kept <==> n in dir && (!IsLogFileName(n) || n in listing[..4])
      {
        if n in listing[..4] {
          var i :| 0 <= i < 4 && listing[i] == n;
          assert n !in listing[4..];
        }
        assert n in listing <==> n in listing[..4] || n in listing[4..] by {
          assert listing == listing[..4] + listing[4..];
        }
      }
      var logs := set n | n in kept && IsLogFileName(n);
      assert logs == set i | 0 <= i < 4 :: listing[i];
      DistinctCard(listing[..4]);
      assert (set i | 0 <= i < 4 :: listing[i]) == (set i | 0 <= i < |listing[..4]| :: listing[..4][i]);
    }
  }

  /** The byte size of a concatenation is the sum of the sizes. */
  lemma {:induction false} Utf8SizeConcat(a: string, b: string)
    ensures Utf8Size(a + b) == Utf8Size(a) + Utf8Size(b)
    decreases |a|
  {
    if a == [] {
      assert a + b == b;
    } else {
      assert (a + b)[0] == a[0] && (a + b)[1..] == a[1..] + b;
      Utf8SizeConcat(a[1..], b);
    }
  }

  /**
   * A rotating write leaves at most five log files: the four kept by
   * rotation and the day's file.
   */
  lemma RotatedWriteKeepsFive(dir: Directory, listing: seq<string>, name: string, line: string, now: int)
    requires IsLogListing(dir, true, listing) && |listing| >= MaxLogFiles
    ensures var after := WithLine(Rotated(dir, listing), name, line, now);
      |set n | n in after && IsLogFileName(n)| <= MaxLogFiles
  {
    RotationKeepsNewest(dir, listing);
    var kept := Rotated(dir, listing);
    var after := WithLine(kept, name, line, now);
    var before := set n | n in kept && IsLogFileName(n);
    var logs := set n | n in after && IsLogFileName(n);
    assert logs <= before + {name};
    SubsetCard(logs, before + {name});
  }

  lemma SubsetCard(a: set<string>, b: set<string>)
    requires a <= b
    ensures |a| <= |b|
  {
    assert b == a + (b - a);
  }

  /**
   * Rotation deletes other files but does not shrink the day's file: when
   * that file survives rotation, the write leaves it over the limit, so the
   * next write rotates again.
   */
  lemma RotatedWriteStaysOversized(dir: Directory, listing: seq<string>, name: string, line: string, now: int)
    requires ShouldRotate(dir, name) && name in Rotated(dir, listing)
    ensures ShouldRotate(WithLine(Rotated(dir, listing), name, line, now), name)
  {
    var kept := Rotated(dir, listing);
    assert kept[name] == dir[name];
    Utf8SizeConcat(kept[name].contents, line);
  }

  /** A sequence without duplicates has as many distinct elements as entries. */
  lemma {:induction false} DistinctCard(s: seq<string>)
    requires NoDuplicates(s)
    ensures |set i | 0 <= i < |s| :: s[i]| == |s|
    decreases |s|
  {
    if s != [] {
      var t := s[..|s| - 1];
      DistinctCard(t);
      var last := s[|s| - 1];
      assert (set i | 0 <= i < |s| :: s[i]) == (set i | 0 <= i < |t| :: t[i]) + {last};
      assert last !in (set i | 0 <= i < |t| :: t[i]);
    }
  }

  /**
   * Appending a line leaves the file's old contents followed by the line
   * (or the line alone in a new file created at `now`) and changes no other file.
   */
  lemma WithLineSpec(dir: Directory, name: string, line: string, now: int)
    ensures var after := WithLine(dir, name, line, now);
      after.Keys == dir.Keys + {name}
      && (forall n :: n in dir && n != name ==> after[n] == dir[n])
      && after[name].contents == (if name in dir then dir[name].contents else "") + line
      && after[name].created == (if name in dir then dir[name].created else Some(now))
  {
  }

  // ---------------------------------------------------------------------------
  // Listing

  /** The newest of a non-empty set of files. */
  method NewestOf(dir: Directory, candidates: set<string>) returns (newest: string)
    requires candidates != {} && candidates <= dir.Keys
    ensures newest in candidates
    ensures forall m :: m in candidates ==> NotOlder(dir[newest].created, dir[m].created)
  {
    newest :| newest in candidates;
    var rest := candidates - {newest};
    while rest != {}
      invariant rest <= candidates && newest in candidates
      invariant forall m :: m in candidates - rest ==> NotOlder(dir[newest].created, dir[m].created)
      decreases rest
    {
      var m :| m in rest;
      if !NotOlder(dir[newest].created, dir[m].created) {
        newest := m;
      }
      rest := rest - {m};
    }
  }

  /** `getLogFiles` over a directory: the log files, newest first, or nothing when the directory cannot be listed. */
  method LogFiles(dir: Directory, listable: bool) returns (names: seq<string>)
    ensures IsLogListing(dir, listable, names)
  {
    if !listable {
      return [];
    }
    var pending := set n | n in dir.Keys && IsLogFileName(n);
    names := [];
    while pending != {}
      invariant pending <= dir.Keys
      invariant forall n :: n in pending ==> IsLogFileName(n) && n !in names
      invariant forall n :: n in dir && IsLogFileName(n) ==> n in names || n in pending
      invariant forall n :: n in names ==> n in dir && IsLogFileName(n)
      invariant NoDuplicates(names) && NewestFirst(dir, names)
      invariant forall i, m :: 0 <= i < |names| && m in pending ==>
        NotOlder(dir[names[i]].created, dir[m].created)
      decreases pending
    {
      var n := NewestOf(dir, pending);
      names := names + [n];
      pending := pending - {n};
    }
  }

  // ---------------------------------------------------------------------------
  // The logger

  class SessionLogger {
    /** The log directory. */
    var files: Directory
    /** Whether listing the directory succeeds. */
    var listable: bool
    /** `JSONEncoder` (ISO 8601 dates, sorted keys) followed by UTF-8 decoding. */
    const encode: SessionData -> string

    constructor (files: Directory, listable: bool, encode: SessionData -> string)
      ensures this.files == files && this.listable == listable && this.encode == encode
    {
      this.files := files;
      this.listable := listable;
      this.encode := encode;
    }

    /** `getLogFiles`. */
    method GetLogFiles() returns (names: seq<string>)
      ensures IsLogListing(files, listable, names)
    {
      names := LogFiles(files, listable);
    }

    /** `rotateLogFiles`: from five log files on, deletes every one after the four newest, one by one. */
    method RotateLogFiles() returns (ghost listing: seq<string>)
      modifies this
      ensures IsLogListing(old(files), listable, listing)
      ensures files == Rotated(old(files), listing) && listable == old(listable)
    {
      var logFiles := GetLogFiles();
      listing := logFiles;
      if |logFiles| >= MaxLogFiles {
        ghost var start := files;
        for i := MaxLogFiles - 1 to |logFiles|
          invariant files == start - Beyond(logFiles, i)
          invariant listable == old(listable)
        {
          assert Beyond(logFiles, i + 1) == Beyond(logFiles, i) + {logFiles[i]};
          files := files - {logFiles[i]};
        }
      }
    }

    /**
     * `writeToLogFile`: rotates first when the day's file has reached the
     * size limit, then appends the line and a newline to the day's file,
     * creating it at `now` when it does not exist (also when rotation
     * deleted it).
     */
    method WriteToLogFile(jsonString: string, today: CalendarDate, now: int) returns (ghost listing: seq<string>)
      modifies this
      ensures listable == old(listable)
      ensures var name := LogFileName(today);
        if ShouldRotate(old(files), name) then
          IsLogListing(old(files), listable, listing)
          && files == WithLine(Rotated(old(files), listing), name, jsonString + "\n", now)
        else files == WithLine(old(files), name, jsonString + "\n", now)
    {
      var name := LogFileName(today);
      var shouldRotate := false;
      if name in files {
        if Utf8Size(files[name].contents) >= MaxFileSize {
          shouldRotate := true;
        }
      }
      listing := [];
      if shouldRotate {
        listing := RotateLogFiles();
      }
      var logLine := jsonString + "\n";
      if name in files {
        files := files[name := files[name].(contents := files[name].contents + logLine)];
      } else {
        files := files[name := LogFile(Some(now), logLine)];
      }
    }

    /** `logSession(_:)`: encodes the record and writes it as one line. */
    method LogSession(data: SessionData, today: CalendarDate, now: int) returns (ghost listing: seq<string>)
      modifies this
      ensures listable == old(listable)
      ensures var name := LogFileName(today);
        if ShouldRotate(old(files), name) then
          IsLogListing(old(files), listable, listing)
          && files == WithLine(Rotated(old(files), listing), name, encode(data) + "\n", now)
        else files == WithLine(old(files), name, encode(data) + "\n", now)
    {
      listing := WriteToLogFile(encode(data), today, now);
    }

    /**
     * The convenience `logSession(title:...)`: builds the record from its
     * arguments unchanged and logs it. `sessionId` stands for the fresh UUID,
     * `appVersion` for the bundle's version string.
     */
    method LogSessionFrom(title: string, plannedDuration: int, actualDuration: Option<int>,
                          startTime: int, endTime: Option<int>, wasCompleted: bool,
                          wasInterrupted: bool, summary: GoalsSummary, appVersion: Option<string>,
                          sessionId: nat, today: CalendarDate, now: int)
      returns (ghost listing: seq<string>)
      requires actualDuration.Some? ==> plannedDuration != 0
      modifies this
      ensures listable == old(listable)
      ensures var data := NewSessionData(sessionId, title, plannedDuration, actualDuration, startTime,
                                         endTime, wasCompleted, wasInterrupted, summary, appVersion, now);
        var name := LogFileName(today);
        if ShouldRotate(old(files), name) then
          IsLogListing(old(files), listable, listing)
          && files == WithLine(Rotated(old(files), listing), name, encode(data) + "\n", now)
        else files == WithLine(old(files), name, encode(data) + "\n", now)
    {
      var data := NewSessionData(sessionId, title, plannedDuration, actualDuration, startTime,
                                 endTime, wasCompleted, wasInterrupted, summary, appVersion, now);
      listing := LogSession(data, today, now);
    }
  }
}
