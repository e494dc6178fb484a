/**
 * Kernel log records in the /dev/kmsg format (the kernel ABI document
 * Documentation/ABI/testing/dev-kmsg): a comma-separated header
 * "prefix,sequence,timestamp,flags[,...]" ended by ';', the message text up
 * to the first newline, then dictionary lines " KEY=value", each ended by a
 * newline. This module parses such records the way KernelLogMessage does and
 * classifies their first line for kernel faults.
 */
module KernelLog {
  import opened Wrappers
  import opened Text

  /** One parsed record. The timestamp stays in integer microseconds. */
  datatype Message = Message(
    facility: int,
    sequence: int,
    timestampUs: int,
    msg: string,
    tags: map<string, string>)

  /** The header: the text before the first ';' or, with no ';', everything but the last character. */
  function HeaderOf(record: string): (h: string)
    ensures |h| <= |record|
  {
    var pos := Find(record, ';');
    if pos >= 0 then record[..pos]
    else if |record| == 0 then []
    else record[..|record| - 1]
  }

  /** The message part: the text after the first ';', or the whole record when there is none. */
  function BodyOf(record: string): (b: string)
    ensures |b| <= |record|
  {
    var pos := Find(record, ';');
    record[pos + 1..]
  }

  /**
   * With a ';' the record is a ';'-free header, the ';' and the body; with
   * none the body is the whole record and the header drops its last character.
   */
  lemma HeaderBody(record: string)
    ensures ';' in record ==> ';' !in HeaderOf(record) && record == HeaderOf(record) + [';'] + BodyOf(record)
    ensures ';' !in record ==> (BodyOf(record) == record
      && HeaderOf(record) == if record == [] then [] else record[..|record| - 1])
  {
    FindSpec(record, ';');
    var pos := Find(record, ';');
    if pos >= 0 {
      assert record == record[..pos] + [';'] + record[pos + 1..];
    }
  }

  /** The candidate tag lines: strictly between the first and the last newline-separated piece. */
  function TagLines(lines: seq<string>): seq<string> {
    if |lines| <= 2 then [] else lines[1..|lines| - 1]
  }

  /** The pieces of a stripped line around '='. */
  function TagFields(line: string): seq<string> {
    Split(Strip(line), '=')
  }

  /** A line that yields a tag: it has at least one '=' once stripped. */
  predicate IsTagLine(line: string) {
    |TagFields(line)| >= 2
  }

  /** The key: the text before the first '='. */
  function Key(line: string): string {
    TagFields(line)[0]
  }

  /** The value: the text between the first and the second '='. */
  function Value(line: string): string
    requires IsTagLine(line)
  {
    TagFields(line)[1]
  }

  /** The number of leading lines that are tag lines: where tag parsing stops. */
  function TagRun(ls: seq<string>): (k: nat)
    ensures k <= |ls|
  {
    TagRunFrom(ls, 0)
  }

  /** Where tag parsing stops when it has reached line `i`. */
  function TagRunFrom(ls: seq<string>, i: nat): (k: nat)
    requires i <= |ls|
    ensures i <= k <= |ls|
    decreases |ls| - i
  {
    if i == |ls| || !IsTagLine(ls[i]) then i else TagRunFrom(ls, i + 1)
  }

  /** From line `i` on, the run covers tag lines only and stops at the first other line. */
  lemma {:induction false} TagRunFromSpec(ls: seq<string>, i: nat)
    requires i <= |ls|
    ensures forall j :: i <= j < TagRunFrom(ls, i) ==> IsTagLine(ls[j])
    ensures TagRunFrom(ls, i) < |ls| ==> !IsTagLine(ls[TagRunFrom(ls, i)])
    decreases |ls| - i
  {
    if i < |ls| && IsTagLine(ls[i]) {
      TagRunFromSpec(ls, i + 1);
    }
  }

  /** The run is the longest prefix of tag lines. */
  lemma TagRunSpec(ls: seq<string>)
    ensures forall j :: 0 <= j < TagRun(ls) ==> IsTagLine(ls[j])
    ensures TagRun(ls) < |ls| ==> !IsTagLine(ls[TagRun(ls)])
  {
    TagRunFromSpec(ls, 0);
  }

  /** The (key, value) pairs of the leading run of tag lines, in order. */
  function TagPairs(ls: seq<string>): (ps: seq<(string, string)>)
    ensures |ps| == TagRun(ls)
  {
    TagRunSpec(ls);
    seq(TagRun(ls), j requires 0 <= j < TagRun(ls) => (Key(ls[j]), Value(ls[j])))
  }

  /** Pair `j` is the key and the value of line `j`. */
  lemma TagPairsSpec(ls: seq<string>)
    ensures forall j :: 0 <= j < TagRun(ls) ==>
      IsTagLine(ls[j]) && TagPairs(ls)[j] == (Key(ls[j]), Value(ls[j]))
  {
    TagRunSpec(ls);
  }

  /** Storing pairs into a dictionary one after the other, as `tags[k] = v` does. */
  function Assign(ps: seq<(string, string)>): map<string, string>
    decreases |ps|
  {
    if |ps| == 0 then map[] else Assign(ps[..|ps| - 1])[ps[|ps| - 1].0 := ps[|ps| - 1].1]
  }

  /** `j` is the last pair that sets its key. */
  predicate LastWithKey(ps: seq<(string, string)>, j: int)
    requires 0 <= j < |ps|
  {
    forall i :: j < i < |ps| ==> ps[i].0 != ps[j].0
  }

  /**
   * What storing pairs in order builds, stated outright: every key is
   * present, no other key is, and the last pair with a key decides its value.
   */
  lemma {:induction false} AssignSpec(ps: seq<(string, string)>)
    ensures forall j :: 0 <= j < |ps| ==> ps[j].0 in Assign(ps)
    ensures forall key :: key in Assign(ps) ==> exists j :: 0 <= j < |ps| && ps[j].0 == key
    ensures forall j :: 0 <= j < |ps| && LastWithKey(ps, j) ==> Assign(ps)[ps[j].0] == ps[j].1
    decreases |ps|
  {
    if |ps| > 0 {
      var n := |ps| - 1;
      var init := ps[..n];
      AssignSpec(init);
      var m := Assign(ps);
      assert m == Assign(init)[ps[n].0 := ps[n].1];
      forall j | 0 <= j < |ps| && LastWithKey(ps, j)
        ensures m[ps[j].0] == ps[j].1
      {
        if j < n {
          assert ps[n].0 != ps[j].0;
          assert init[j] == ps[j];
          assert LastWithKey(init, j) by {
            forall i | j < i < n ensures init[i].0 != init[j].0 {
              assert init[i] == ps[i];
            }
          }
        }
      }
      forall key | key in m
        ensures exists j :: 0 <= j < |ps| && ps[j].0 == key
      {
        if key != ps[n].0 {
          var j :| 0 <= j < n && init[j].0 == key;
          assert ps[j] == init[j];
        }
      }
      forall j | 0 <= j < |ps| ensures ps[j].0 in m {
        if j < n { assert init[j] == ps[j]; }
      }
    }
  }

  /**
   * The tag dictionary that the try/for loop builds: lines are stored in
   * order (a later key overwrites an earlier one) until the first line
   * without '=', whose IndexError the bare except swallows, keeping the
   * tags stored so far.
   */
  function CollectTags(ls: seq<string>): map<string, string> {
    Assign(TagPairs(ls))
  }

  /**
   * The tags, stated outright in terms of the lines: each line before the
   * first one without '=' contributes its key, no other key appears, and
   * the last such line with a key gives its value.
   */
  lemma CollectTagsSpec(ls: seq<string>)
    ensures var t := CollectTags(ls); var k := TagRun(ls);
      (forall j :: 0 <= j < k ==> IsTagLine(ls[j]) && Key(ls[j]) in t)
      && (k < |ls| ==> !IsTagLine(ls[k]))
      && (forall key :: key in t ==> exists j :: 0 <= j < k && Key(ls[j]) == key)
      && (forall j :: 0 <= j < k && (forall i :: j < i < k ==> Key(ls[i]) != Key(ls[j]))
            ==> IsTagLine(ls[j]) && t[Key(ls[j])] == Value(ls[j]))
  {
    var ps := TagPairs(ls);
    TagRunSpec(ls);
    TagPairsSpec(ls);
    AssignSpec(ps);
    forall j | 0 <= j < |ps| && (forall i :: j < i < |ps| ==> Key(ls[i]) != Key(ls[j]))
      ensures LastWithKey(ps, j)
    {
    }
  }

  /**
   * KernelLogMessage.__init__: split the header from the message at the
   * first ';', parse the first three comma fields as integers, keep the
   * first line as the message and collect the tags. Too few header fields
   * or a field int() refuses raise ValueError.
   */
  function ParseMessage(record: string): (r: Result<Message, PyError>)
    ensures r.Failure? ==> r.error == ValueError
  {
    var fields := Split(HeaderOf(record), ',');
    if |fields| < 3 then Failure(ValueError)
    else
      var facility := ParseInt(fields[0]);
      var sequence := ParseInt(fields[1]);
      var timestamp := ParseInt(fields[2]);
      if facility.None? || sequence.None? || timestamp.None? then Failure(ValueError)
      else
        var lines := Split(BodyOf(record), '\n');
        Success(Message(facility.value, sequence.value, timestamp.value, lines[0],
                        CollectTags(TagLines(lines))))
  }

  /** The message kept is the body's first line: a newline-free prefix of the body. */
  lemma ParseMessageText(record: string)
    ensures ParseMessage(record).Success? ==>
      '\n' !in ParseMessage(record).value.msg && ParseMessage(record).value.msg <= BodyOf(record)
  {
    var body := BodyOf(record);
    var lines := Split(body, '\n');
    SplitSpec(body, '\n');
    JoinSplit(body, '\n');
    if |lines| > 1 {
      JoinCons(lines[0], lines[1..], '\n');
      assert [lines[0]] + lines[1..] == lines;
    }
  }

  /** The constructor proper: the same split, with the tag dictionary filled by a loop. */
  method ParseRecord(record: string) returns (r: Result<Message, PyError>)
    ensures r == ParseMessage(record)
  {
    var fields := Split(HeaderOf(record), ',');
    if |fields| < 3 {
      return Failure(ValueError);
    }
    var facility := ParseInt(fields[0]);
    var sequence := ParseInt(fields[1]);
    var timestamp := ParseInt(fields[2]);
    if facility.None? || sequence.None? || timestamp.None? {
      return Failure(ValueError);
    }
    var lines := Split(BodyOf(record), '\n');
    var tags := StoreTags(TagLines(lines));
    return Success(Message(facility.value, sequence.value, timestamp.value, lines[0], tags));
  }

  /** Storing one more pair of a prefix. */
  lemma AssignPrefixStep(ps: seq<(string, string)>, i: nat)
    requires i < |ps|
    ensures Assign(ps[..i + 1]) == Assign(ps[..i])[ps[i].0 := ps[i].1]
  {
    assert ps[..i + 1][..i] == ps[..i];
  }

  /** The try/for loop of the constructor, storing tags until a line without '='. */
  method StoreTags(ls: seq<string>) returns (tags: map<string, string>)
    ensures tags == CollectTags(ls)
  {
    ghost var pairs := TagPairs(ls);
    TagRunSpec(ls);
    tags := map[];
    var i := 0;
    while i < |ls|
      invariant 0 <= i <= TagRun(ls)
      invariant tags == Assign(pairs[..i])
    {
      var parts := Split(Strip(ls[i]), '=');
      if |parts| < 2 {
        assert !IsTagLine(ls[i]);
        break;
      }
      AssignPrefixStep(pairs, i);
      tags := tags[parts[0] := parts[1]];
      i := i + 1;
    }
    assert i == TagRun(ls);
    assert pairs[..i] == pairs;
  }

  /** A record as the kernel writes it to /dev/kmsg. */
  datatype KmsgRecord = KmsgRecord(
    prefix: nat,
    sequence: nat,
    timestampUs: nat,
    flags: string,                 // "-", "c", possibly followed by ",caller=..." fields
    text: string,
    dict: seq<(string, string)>)   // the " KEY=value" continuation lines, in order

  function DictLine(kv: (string, string)): string {
    " " + kv.0 + "=" + kv.1
  }

  function DictLines(dict: seq<(string, string)>): string
    decreases |dict|
  {
    if |dict| == 0 then "" else DictLine(dict[0]) + "\n" + DictLines(dict[1..])
  }

  /** The record prefix: "<prefix>,<sequence>,<timestamp>,<flags>". */
  function FormatHeader(r: KmsgRecord): string {
    IntToString(r.prefix) + "," + IntToString(r.sequence) + "," + IntToString(r.timestampUs)
    + "," + r.flags
  }

  /** The text line followed by the dictionary lines. */
  function FormatBody(r: KmsgRecord): string {
    r.text + "\n" + DictLines(r.dict)
  }

  function Format(r: KmsgRecord): string {
    FormatHeader(r) + ";" + FormatBody(r)
  }

  /** A dictionary entry that survives strip and split on '=' unchanged. */
  predicate PlainEntry(kv: (string, string)) {
    NoSpace(kv.0) && NoSpace(kv.1) && '=' !in kv.0 && '=' !in kv.1
  }

  predicate WellFormed(r: KmsgRecord) {
    ';' !in r.flags && '\n' !in r.text
    && (forall i :: 0 <= i < |r.dict| ==> PlainEntry(r.dict[i]))
    && (forall i, j :: 0 <= i < j < |r.dict| ==> r.dict[i].0 != r.dict[j].0)
  }

  lemma DictLineFields(kv: (string, string))
    requires PlainEntry(kv)
    ensures IsTagLine(DictLine(kv)) && Key(DictLine(kv)) == kv.0 && Value(DictLine(kv)) == kv.1
  {
    var w := kv.0 + "=" + kv.1;
    assert NoSpace(w) by {
      forall i | 0 <= i < |w| ensures !IsSpace(w[i]) {
        if i < |kv.0| { assert w[i] == kv.0[i]; }
        else if i > |kv.0| { assert w[i] == kv.1[i - |kv.0| - 1]; }
      }
    }
    assert DictLine(kv) == " " + w;
    StripPadded(" ", w);
    SplitCons(kv.0, '=', kv.1);
    assert Split(kv.1, '=') == [kv.1];
  }

  /** The dictionary lines, one string per line, without the newlines. */
  function DictLineSeq(dict: seq<(string, string)>): (ls: seq<string>)
    ensures |ls| == |dict| && forall i :: 0 <= i < |dict| ==> ls[i] == DictLine(dict[i])
    decreases |dict|
  {
    if |dict| == 0 then [] else [DictLine(dict[0])] + DictLineSeq(dict[1..])
  }

  /** A dictionary line holds no newline: it is one line of the record. */
  lemma DictLineOneLine(kv: (string, string))
    requires PlainEntry(kv)
    ensures '\n' !in DictLine(kv)
  {
    var l := DictLine(kv);
    forall i | 0 <= i < |l| ensures l[i] != '\n' {
      if 0 < i <= |kv.0| { assert l[i] == kv.0[i - 1]; }
      else if i > |kv.0| + 1 { assert l[i] == kv.1[i - |kv.0| - 2]; }
    }
  }

  lemma {:induction false} SplitDictLines(dict: seq<(string, string)>)
    requires forall i :: 0 <= i < |dict| ==> PlainEntry(dict[i])
    ensures Split(DictLines(dict), '\n') == DictLineSeq(dict) + [""]
    decreases |dict|
  {
    if |dict| == 0 {
      assert Find("", '\n') < 0;
    } else {
      SplitDictLines(dict[1..]);
      SplitDictLinesStep(dict);
    }
  }

  /** One more dictionary line in front adds its line in front of the split. */
  lemma SplitDictLinesStep(dict: seq<(string, string)>)
    requires |dict| > 0 && PlainEntry(dict[0])
    requires Split(DictLines(dict[1..]), '\n') == DictLineSeq(dict[1..]) + [""]
    ensures Split(DictLines(dict), '\n') == DictLineSeq(dict) + [""]
  {
    var l, rest := DictLine(dict[0]), DictLines(dict[1..]);
    assert DictLines(dict) == l + ['\n'] + rest;
    DictLineOneLine(dict[0]);
    SplitCons(l, '\n', rest);
    assert DictLineSeq(dict) == [l] + DictLineSeq(dict[1..]);
  }

  /** The message body of a formatted record splits into the text, the dictionary lines and "". */
  lemma FormatBodyLines(r: KmsgRecord)
    requires WellFormed(r)
    ensures Split(r.text + "\n" + DictLines(r.dict), '\n') == [r.text] + DictLineSeq(r.dict) + [""]
  {
    SplitDictLines(r.dict);
    SplitCons(r.text, '\n', DictLines(r.dict));
  }

  /** Tags of well-formed dictionary lines with distinct keys are exactly the dictionary. */
  lemma DictTags(dict: seq<(string, string)>)
    requires forall i :: 0 <= i < |dict| ==> PlainEntry(dict[i])
    requires forall i, j :: 0 <= i < j < |dict| ==> dict[i].0 != dict[j].0
    ensures var t := CollectTags(DictLineSeq(dict));
      (forall i :: 0 <= i < |dict| ==> dict[i].0 in t && t[dict[i].0] == dict[i].1)
      && (forall key :: key in t ==> exists i :: 0 <= i < |dict| && dict[i].0 == key)
  {
    var ls := DictLineSeq(dict);
    forall i | 0 <= i < |dict|
      ensures IsTagLine(ls[i]) && Key(ls[i]) == dict[i].0 && Value(ls[i]) == dict[i].1
    {
      DictLineFields(dict[i]);
    }
    TagRunSpec(ls);
    assert TagRun(ls) == |dict|;
    TagPairsSpec(ls);
    assert TagPairs(ls) == dict;
    AssignSpec(dict);
    forall j | 0 <= j < |dict| ensures LastWithKey(dict, j) {
    }
  }

  /** A record splits at its first ';', which ends a ';'-free header. */
  lemma SplitAtSemicolon(header: string, body: string)
    requires ';' !in header
    ensures HeaderOf(header + ";" + body) == header && BodyOf(header + ";" + body) == body
  {
    var record := header + ";" + body;
    var k := Find(record, ';');
    FindSpec(record, ';');
    assert record[|header|] == ';';
    assert forall j :: 0 <= j < |header| ==> record[j] == header[j];
    assert forall j :: 0 <= j < k ==> record[j] != ';' by {
      forall j | 0 <= j < k ensures record[j] != ';' {
        assert record[..k][j] == record[j];
      }
    }
    assert k == |header|;
    assert record[..k] == header;
    assert record[k + 1..] == body;
  }

  /** The integers of a formatted header are its first three comma fields. */
  lemma HeaderFields(p: string, s: string, t: string, flags: string)
    requires ',' !in p && ',' !in s && ',' !in t
    ensures var f := Split(p + "," + s + "," + t + "," + flags, ',');
      |f| >= 3 && f[0] == p && f[1] == s && f[2] == t
  {
    var r2 := t + [','] + flags;
    var r1 := s + [','] + r2;
    assert p + "," + s + "," + t + "," + flags == p + [','] + r1;
    SplitCons(t, ',', flags);
    SplitCons(s, ',', r2);
    SplitCons(p, ',', r1);
    var f2 := Split(r2, ',');
    var f1 := Split(r1, ',');
    assert f1 == [s] + f2 && f2[0] == t;
    assert f1[0] == s && f1[1] == t;
  }

  /** A decimal integer holds neither of the header's separators. */
  lemma IntHasNoSeparator(n: int)
    ensures ';' !in IntToString(n) && ',' !in IntToString(n)
  {
    var d := IntToString(n);
    assert forall i :: 0 <= i < |d| ==> d[i] != ';' && d[i] != ',';
  }

  /** The header the kernel writes holds no ';', and its first three comma fields are the integers. */
  lemma FormatHeaderFields(r: KmsgRecord)
    requires ';' !in r.flags
    ensures ';' !in FormatHeader(r)
    ensures var f := Split(FormatHeader(r), ',');
      |f| >= 3 && f[0] == IntToString(r.prefix) && f[1] == IntToString(r.sequence)
      && f[2] == IntToString(r.timestampUs)
  {
    IntHasNoSeparator(r.prefix);
    IntHasNoSeparator(r.sequence);
    IntHasNoSeparator(r.timestampUs);
    HeaderFields(IntToString(r.prefix), IntToString(r.sequence), IntToString(r.timestampUs), r.flags);
  }

  /** ParseMessage on a record whose three header integers parse. */
  lemma ParseMessageParts(record: string, facility: int, sequence: int, timestamp: int)
    requires var f := Split(HeaderOf(record), ',');
      |f| >= 3 && ParseInt(f[0]) == Some(facility) && ParseInt(f[1]) == Some(sequence)
      && ParseInt(f[2]) == Some(timestamp)
    ensures var lines := Split(BodyOf(record), '\n');
      ParseMessage(record)
      == Success(Message(facility, sequence, timestamp, lines[0], CollectTags(TagLines(lines))))
  {
  }

  /**
   * Parsing a record the kernel formatted gives back its integers, its text
   * and its dictionary; the flags and any further header fields are ignored.
   */
  lemma ParseFormat(r: KmsgRecord)
    requires WellFormed(r)
    ensures var m := ParseMessage(Format(r));
      m.Success?
      && m.value.facility == r.prefix && m.value.sequence == r.sequence
      && m.value.timestampUs == r.timestampUs && m.value.msg == r.text
      && (forall i :: 0 <= i < |r.dict| ==> r.dict[i].0 in m.value.tags && m.value.tags[r.dict[i].0] == r.dict[i].1)
      && (forall key :: key in m.value.tags ==> exists i :: 0 <= i < |r.dict| && r.dict[i].0 == key)
  {
    FormatHeaderFields(r);
    SplitAtSemicolon(FormatHeader(r), FormatBody(r));
    ParseIntOfIntToString(r.prefix);
    ParseIntOfIntToString(r.sequence);
    ParseIntOfIntToString(r.timestampUs);
    ParseMessageParts(Format(r), r.prefix, r.sequence, r.timestampUs);
    FormatBodyLines(r);
    var lines := Split(FormatBody(r), '\n');
    assert lines[0] == r.text;
    assert TagLines(lines) == DictLineSeq(r.dict);
    DictTags(r.dict);
  }

  /** With no ';' the header loses the record's last character and the whole record is the message. */
  lemma NoSemicolonHeader(record: string)
    requires ';' !in record && |record| > 0
    ensures HeaderOf(record) == record[..|record| - 1] && BodyOf(record) == record
  {
  }

  /** A header with fewer than three comma fields raises ValueError. */
  lemma ShortHeaderRaises(record: string)
    requires |Split(HeaderOf(record), ',')| < 3
    ensures ParseMessage(record) == Failure(ValueError)
  {
  }

  /** The strings whose presence marks a kernel fault. */
  const FaultSignatures: seq<string> := ["Kernel panic", "Oops", "WARNING:"]

  /** any(s in text for s in kernel_fault_strings): case-sensitive substring tests. */
  function IsFault(text: string): (r: bool)
    ensures r <==> exists i :: 0 <= i < |FaultSignatures| && Contains(text, FaultSignatures[i])
  {
    assert FaultSignatures[0] == "Kernel panic" && FaultSignatures[1] == "Oops";
    assert FaultSignatures[2] == "WARNING:" && |FaultSignatures| == 3;
    Contains(text, "Kernel panic") || Contains(text, "Oops") || Contains(text, "WARNING:")
  }

  /**
   * The validator's loop: a fault is found exactly when the first line of
   * some record contains a fault signature.
   */
  method ScanForFaults(msgs: seq<Message>) returns (fault: bool)
    ensures fault <==> exists i :: 0 <= i < |msgs| && IsFault(msgs[i].msg)
  {
    fault := false;
    for i := 0 to |msgs|
      invariant fault <==> exists j :: 0 <= j < i && IsFault(msgs[j].msg)
    {
      if IsFault(msgs[i].msg) {
        fault := true;
      }
    }
  }

  /** Only the first line is classified: a signature in a dictionary line does not count. */
  lemma FaultOnlyInText(r: KmsgRecord)
    requires WellFormed(r)
    ensures ParseMessage(Format(r)).Success?
    ensures IsFault(ParseMessage(Format(r)).value.msg) <==> IsFault(r.text)
  {
    ParseFormat(r);
  }

  /** The warning line the log-validator test injects is recognised. */
  lemma WarningLineIsFault()
    ensures IsFault("[ 1192.253245] " + "WARNING:" + " CPU: 1 PID: 4059 at /home/linuxembedded/iob/fdp1/kbuild-rcar/sources/linux/drivers/media/v4l2-core/videobuf2-core.c:1458 vb2_start_streaming+0xd4/0x150")
  {
    ContainsInfix("[ 1192.253245] ", "WARNING:", " CPU: 1 PID: 4059 at /home/linuxembedded/iob/fdp1/kbuild-rcar/sources/linux/drivers/media/v4l2-core/videobuf2-core.c:1458 vb2_start_streaming+0xd4/0x150");
  }

  /** The panic line the log-validator test injects is recognised. */
  lemma PanicLineIsFault()
    ensures IsFault("" + "Kernel panic" + " - not syncing: zynqmp_plat_init power management API version error. Expected: v0.3 - Found: v0.2")
  {
    ContainsInfix("", "Kernel panic", " - not syncing: zynqmp_plat_init power management API version error. Expected: v0.3 - Found: v0.2");
  }

  /** Matching is case-sensitive: lower-case spellings are not faults. */
  lemma LowerCaseIsNotFault()
    ensures !IsFault("kernel panic, oops, warning:")
  {
    var text := "kernel panic, oops, warning:";
    assert 'K' !in text && 'O' !in text && 'W' !in text;
    ContainsNeedsFirstChar(text, "Kernel panic");
    ContainsNeedsFirstChar(text, "Oops");
    ContainsNeedsFirstChar(text, "WARNING:");
  }
}
