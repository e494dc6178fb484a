/**
 * KernelLogReader: a non-blocking cursor over /dev/kmsg. The device is an
 * append-only sequence of entries; each read() returns the next one, and
 * an empty device (EAGAIN) ends a batch.
 */
module KmsgReader {
  import opened Wrappers
  import opened KernelLog

  /** What one read() of /dev/kmsg yields at the reader's position. */
  datatype Entry =
    | Record(text: string)   // one record, already decoded to text
    | Overwritten            // the record was overwritten before it was read: EPIPE

  const EPIPE := 32

  /** The kernel log buffer behind /dev/kmsg: the kernel only ever appends to it. */
  class Kmsg {
    var entries: seq<Entry>

    constructor (initial: seq<Entry>)
      ensures entries == initial
    {
      entries := initial;
    }

    /** The kernel writes more records. */
    method Append(more: seq<Entry>)
      modifies this
      ensures entries == old(entries) + more
    {
      entries := entries + more;
    }
  }

  /** One read() turned into a record, or the exception read() or the parser raises. */
  function ParseEntry(e: Entry): Result<Message, PyError> {
    match e
    case Record(text) => ParseMessage(text)
    case Overwritten => Failure(OSError(EPIPE))
  }

  /**
   * Reading items one after the other with `parse` until one raises: all
   * the values in order, or the first exception, which drops the values
   * read before it.
   */
  function Drain<T, V, E>(xs: seq<T>, parse: T -> Result<V, E>): Result<seq<V>, E>
    decreases |xs|
  {
    if |xs| == 0 then Success([])
    else
      var v :- parse(xs[0]);
      var rest :- Drain(xs[1..], parse);
      Success([v] + rest)
  }

  /**
   * A drained batch holds every value, in order, each exactly once; it
   * fails exactly when some item fails, with the first failure.
   */
  lemma {:induction false} DrainSpec<T, V, E>(xs: seq<T>, parse: T -> Result<V, E>)
    ensures Drain(xs, parse).Success? <==> forall i :: 0 <= i < |xs| ==> parse(xs[i]).Success?
    ensures Drain(xs, parse).Success? ==>
      |Drain(xs, parse).value| == |xs|
      && forall i :: 0 <= i < |xs| ==> Drain(xs, parse).value[i] == parse(xs[i]).value
    ensures Drain(xs, parse).Failure? ==>
      exists k :: 0 <= k < |xs| && parse(xs[k]) == Failure(Drain(xs, parse).error)
        && forall i :: 0 <= i < k ==> parse(xs[i]).Success?
    decreases |xs|
  {
    if |xs| > 0 {
      var tail := xs[1..];
      DrainSpec(tail, parse);
      assert forall i :: 1 <= i < |xs| ==> xs[i] == tail[i - 1];
      if parse(xs[0]).Success? && Drain(tail, parse).Failure? {
        var k :| 0 <= k < |tail| && parse(tail[k]) == Failure(Drain(tail, parse).error)
          && (forall i :: 0 <= i < k ==> parse(tail[i]).Success?);
        assert parse(xs[k + 1]) == Failure(Drain(xs, parse).error);
      }
    }
  }

  /** Draining in two batches gives what one batch would: nothing lost, nothing repeated. */
  lemma {:induction false} DrainConcat<T, V, E>(a: seq<T>, b: seq<T>, parse: T -> Result<V, E>)
    ensures Drain(a + b, parse) ==
      match Drain(a, parse)
      case Failure(e) => Failure(e)
      case Success(x) =>
        match Drain(b, parse)
        case Failure(e) => Failure(e)
        case Success(y) => Success(x + y)
    decreases |a|
  {
    if |a| == 0 {
      assert a + b == b;
      if Drain(b, parse).Success? {
        assert [] + Drain(b, parse).value == Drain(b, parse).value;
      }
    } else {
      assert (a + b)[0] == a[0];
      assert (a + b)[1..] == a[1..] + b;
      DrainConcat(a[1..], b, parse);
      if parse(a[0]).Success? && Drain(a[1..], parse).Success? && Drain(b, parse).Success? {
        var v, x, y := parse(a[0]).value, Drain(a[1..], parse).value, Drain(b, parse).value;
        assert Drain(a + b, parse) == Success([v] + (x + y));
        assert [v] + (x + y) == [v] + x + y;
      }
    }
  }

  /** One more item after a clean prefix: its value is appended, or its failure ends the batch. */
  lemma DrainStep<T, V, E>(xs: seq<T>, i: nat, parse: T -> Result<V, E>)
    requires i < |xs| && Drain(xs[..i], parse).Success?
    ensures parse(xs[i]).Success? ==>
      Drain(xs[..i + 1], parse) == Success(Drain(xs[..i], parse).value + [parse(xs[i]).value])
    ensures parse(xs[i]).Failure? ==> Drain(xs, parse) == Failure(parse(xs[i]).error)
  {
    var x := xs[i];
    assert xs[..i + 1] == xs[..i] + [x];
    DrainConcat(xs[..i], [x], parse);
    var none: seq<T> := [];
    assert Drain(none, parse) == Success([]);
    assert [x][1..] == none;
    if parse(x).Success? {
      assert [parse(x).value] + [] == [parse(x).value];
    } else {
      assert xs[..i + 1] + xs[i + 1..] == xs;
      DrainConcat(xs[..i + 1], xs[i + 1..], parse);
    }
  }

  /**
   * The read loop over the entries from `start` on, parsing each with
   * `parse`: it returns what draining them returns, and the position just
   * past the last entry read.
   */
  method ReadEntries(entries: seq<Entry>, start: nat, parse: Entry -> Result<Message, PyError>)
    returns (r: Result<seq<Message>, PyError>, next: nat)
    requires start <= |entries|
    ensures start <= next <= |entries|
    ensures r == Drain(entries[start..], parse)
    ensures r.Success? ==> next == |entries|
    ensures r.Failure? ==> start < next
    ensures r.Failure? ==> parse(entries[next - 1]) == Failure(r.error)
    ensures r.Failure? ==> Drain(entries[start..next - 1], parse).Success?
  {
    ghost var es := entries[start..];
    var msgs: seq<Message> := [];
    next := start;
    assert es[..0] == [];
    while next < |entries|
      invariant start <= next <= |entries|
      invariant Drain(es[..next - start], parse) == Success(msgs)
      decreases |entries| - next
    {
      var m := parse(entries[next]);
      ghost var k := next - start;
      assert es[k] == entries[next];
      DrainStep(es, k, parse);
      next := next + 1;
      if m.Failure? {
        assert es[..k] == entries[start..next - 1];
        return Failure(m.error), next;
      }
      msgs := msgs + [m.value];
    }
    assert es[..next - start] == es;
    r := Success(msgs);
  }

  /**
   * A reader with its own file position on the shared device. `parse` is
   * the record parser it applies to each read (KernelLogMessage); the
   * constructor fixes it to ParseEntry.
   */
  class KernelLogReader {
    const kmsg: Kmsg
    const parse: Entry -> Result<Message, PyError>
    var cursor: nat

    predicate Valid()
      reads this, kmsg
    {
      cursor <= |kmsg.entries|
    }

    /** The entries appended since the reader's position: what the next read() consumes. */
    function Unread(): seq<Entry>
      requires Valid()
      reads this, kmsg
    {
      kmsg.entries[cursor..]
    }

    /** What the next read() returns. */
    function Pending(): Result<seq<Message>, PyError>
      requires Valid()
      reads this, kmsg
    {
      Drain(kmsg.entries[cursor..], parse)
    }

    /** Opening seeks to the end of the log: only records appended later are seen. */
    constructor (kmsg: Kmsg)
      ensures this.kmsg == kmsg && cursor == |kmsg.entries|
      ensures parse == ParseEntry
      ensures Valid()
    {
      this.kmsg := kmsg;
      parse := ParseEntry;
      cursor := |kmsg.entries|;
    }

    /**
     * read(): parse records until the device is empty. An exception ends
     * the batch just past the entry that raised it, and the records parsed
     * before it in this batch are dropped with it.
     */
    method Read() returns (r: Result<seq<Message>, PyError>)
      requires Valid()
      modifies this
      ensures Valid()
      ensures r == Drain(old(kmsg.entries[cursor..]), parse)
      ensures r.Success? ==> cursor == |kmsg.entries|
      ensures r.Failure? ==> old(cursor) < cursor
      ensures r.Failure? ==> parse(kmsg.entries[cursor - 1]) == Failure(r.error)
      ensures r.Failure? ==> Drain(kmsg.entries[old(cursor)..cursor - 1], parse).Success?
    {
      r, cursor := ReadEntries(kmsg.entries, cursor, parse);
    }
  }
}
