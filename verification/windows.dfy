/** The flow-control windows as objects over their packed words. Each method is one call that no
    other goroutine interrupts, so its compare-and-swap succeeds at once; it is proved to do what
    the steps of the stream model do, on a state `s` that the fields mirror. */
module Windows {
  import opened Options
  import opened Segments
  import opened Words
  import Stream

  /** A word whose unused bit is clear: it is determined by what it unpacks to. */
  ghost predicate Packed(w: u64) {
    w == Word(UnpackWindow(w))
  }

  function Word(w: Window): u64 {
    PackWindow(w.max, w.done, w.wait)
  }

  lemma WordPacked(w: Window)
    ensures UnpackWindow(Word(w)) == w && Packed(Word(w))
  {
    WindowRoundTrip(w.max, w.done, w.wait);
  }

  /** A compare-and-swap compares words; on packed words that is comparing windows. */
  lemma SameWordSameWindow(a: u64, b: u64)
    requires Packed(a) && Packed(b)
    ensures a == b <==> UnpackWindow(a) == UnpackWindow(b)
  {
    hide PackWindow, UnpackWindow;
  }

  class SendWindow {
    var maxSizeDone: u64
    var buf: seq<byte>
    var off: nat

    ghost predicate Mirrors(snd: Stream.Sender)
      reads this
    {
      Packed(maxSizeDone) && UnpackWindow(maxSizeDone) == snd.win && buf == snd.buf && off == snd.off
    }

    constructor ()
      ensures Mirrors(Stream.Fresh.snd)
    {
      maxSizeDone, buf, off := PackWindow(INITIAL_WINDOW, 0, false), [], 0;
      new;
      WordPacked(Stream.Fresh.snd.win);
    }

    /** Applies an acknowledgement; `notify` asks for the parked writer to be woken. */
    method SetSize(currentMaxSizeDone: u64, ghost s: Stream.State) returns (notify: bool, ghost s': Stream.State)
      requires Mirrors(s.snd)
      requires
        var a := UnpackWindow(currentMaxSizeDone);
        s.snd.setter == Stream.Loop(Stream.Ack(a.max, a.done), false)
      modifies this`maxSizeDone
      ensures Mirrors(s'.snd)
      ensures
        var loaded := Stream.LoadInSetSize(s);
        && loaded.Some?
        && (if loaded.value.snd.setter.Ready? then s' == loaded.value
            else Some(s') == Stream.SwapInSetSize(loaded.value))
      ensures notify <==> s'.snd.setter.Waking?
      ensures !s'.snd.setter.Loop?
    {
      hide PackWindow, UnpackWindow;
      var current := UnpackWindow(currentMaxSizeDone);
      var ptrs := UnpackWindow(maxSizeDone);
      s' := Stream.LoadInSetSize(s).value;
      if current.done > ptrs.done {
        return false, s';
      }
      if current.done == 0 && current.max == ptrs.max {
        return false, s';
      }
      var send := ptrs.done - current.done;
      var newWait := Stream.Remaining(current.max, send) == 0 && ptrs.wait;
      maxSizeDone := Word(Window(current.max, send, newWait));
      WordPacked(Window(current.max, send, newWait));
      notify := ptrs.wait && !newWait;
      s' := Stream.SwapInSetSize(s').value;
    }

    /** Adds to the sent counter. The counter never wraps in a run (BadBranchesUnreachable). */
    method Sent(sentSize: u32, ghost s: Stream.State) returns (ghost s': Stream.State)
      requires Mirrors(s.snd) && s.snd.writer.Cut? && |s.snd.writer.seg.data| == sentSize
      requires Stream.Sent(s).Some?
      modifies this`maxSizeDone
      ensures Some(s') == Stream.Sent(s) && Mirrors(s'.snd)
    {
      hide PackWindow, UnpackWindow;
      var ptrs := UnpackWindow(maxSizeDone);
      var w := ptrs.(done := (ptrs.done + sentSize) % TWO31);
      maxSizeDone := Word(w);
      WordPacked(w);
      s' := Stream.Sent(s).value;
    }

    /** One segment of the buffer, or none when the buffer is drained (`done`) or the window is
        full; then the wait flag is set and the caller parks. */
    method WriteTo(ghost s: Stream.State) returns (p: Option<Segment>, done: bool, ghost s': Stream.State)
      requires Mirrors(s.snd) && s.snd.writer.Top?
      modifies this`maxSizeDone, this`off
      ensures Mirrors(s'.snd)
      ensures
        var cut := Stream.WriteTo(s);
        && cut.Some?
        && (if p.Some? then
              !done && cut.value.snd.writer == Stream.Cut(p.value) && Some(s') == Stream.Sent(cut.value)
              && s'.snd.writer == Stream.Counted(p.value)
            else s' == cut.value && (done <==> s'.snd.writer.Idle?) && (!done <==> s'.snd.writer.Parked?))
    {
      hide PackWindow, UnpackWindow;
      s' := Stream.WriteTo(s).value;
      if off >= |buf| {
        return None, true, s';
      }
      var ptrs := UnpackWindow(maxSizeDone);
      var remain := Stream.Remaining(ptrs.max, ptrs.done);
      if remain == 0 {
        maxSizeDone := Word(ptrs.(wait := true));
        WordPacked(ptrs.(wait := true));
        return None, false, s';
      }
      var left := |buf| - off;
      var sendSize := if left > MAXIMUM_SEGMENT_SIZE then MAXIMUM_SEGMENT_SIZE else left;
      if remain < sendSize {
        sendSize := remain;
      }
      var part := sendSize < left;
      p := Some(Segment(buf[off..off + sendSize], part));
      done := false;
      off := off + sendSize;
      s' := Sent(sendSize, s');
    }
  }

  class ReceiveWindow {
    var maxSizeDone: u64

    ghost predicate Mirrors(rcv: Stream.Receiver)
      reads this
    {
      Packed(maxSizeDone) && UnpackWindow(maxSizeDone) == rcv.win
    }

    constructor ()
      ensures Mirrors(Stream.Fresh.rcv)
    {
      maxSizeDone := PackWindow(INITIAL_WINDOW, 0, false);
      new;
      WordPacked(Stream.Fresh.rcv.win);
    }

    /** The window update of `Write` for an element that makes the queue `load` bytes long; the
        result is the word to acknowledge with after the push, if any. */
    method Accept(load: nat, ghost s: Stream.State) returns (report: Option<u64>, ghost s': Stream.State)
      requires Mirrors(s.rcv) && s.rcv.deliverer.Deciding?
      requires load == s.rcv.rq.length + |s.rcv.deliverer.seg.data|
      requires s.rcv.rq.pusher.Idle?
      modifies this
      ensures Mirrors(s'.rcv)
      ensures Some(s') == Stream.SwapInWrite(Stream.CheckInWrite(Stream.LoadInWrite(s).value).value)
      ensures s'.rcv.deliverer.Pushing?
      ensures
        match report
        case None => s'.rcv.deliverer.report.None?
        case Some(w) => s'.rcv.deliverer.report == Some(Stream.Ack(UnpackWindow(w).max, UnpackWindow(w).done))
    {
      hide PackWindow, UnpackWindow;
      var ptrs := UnpackWindow(maxSizeDone);
      var remain := Stream.Remaining(ptrs.max, load);
      s' := Stream.SwapInWrite(Stream.CheckInWrite(Stream.LoadInWrite(s).value).value).value;
      report := None;
      if remain == 0 && !ptrs.wait {
        maxSizeDone := Word(ptrs.(wait := true));
        WordPacked(ptrs.(wait := true));
      } else if !ptrs.wait {
        maxSizeDone := Word(ptrs.(done := 0));
        WordPacked(ptrs.(done := 0));
        report := Some(Word(ptrs));
        WordPacked(ptrs);
      }
    }

    /** `sendStatus` after an element of `l` bytes is used up, with `queued` bytes in the queue; the
        result is the word to acknowledge with, if any. */
    method SendStatus(l: u16, queued: nat, ghost s: Stream.State) returns (report: Option<u64>, ghost s': Stream.State)
      requires Mirrors(s.rcv) && s.rcv.reader.Status? && |s.rcv.elem.data| == l && queued == s.rcv.rq.length
      requires Stream.SwapInStatus(Stream.CheckInStatus(Stream.LoadInStatus(s).value).value).Some?
      modifies this
      ensures Mirrors(s'.rcv)
      ensures Some(s') == Stream.SwapInStatus(Stream.CheckInStatus(Stream.LoadInStatus(s).value).value)
      ensures
        match report
        case None => !s'.rcv.reader.Reporting?
        case Some(w) => s'.rcv.reader == Stream.Reporting(s.rcv.reader.room,
                                                          Stream.Ack(UnpackWindow(w).max, UnpackWindow(w).done))
    {
      hide PackWindow, UnpackWindow;
      var ptrs := UnpackWindow(maxSizeDone);
      s' := Stream.SwapInStatus(Stream.CheckInStatus(Stream.LoadInStatus(s).value).value).value;
      report := None;
      if ptrs.done <= (ptrs.done + l) % TWO31 {
        var read := ptrs.done + l;
        var remain := Stream.Remaining(ptrs.max, queued);
        if (ptrs.wait && remain > 0) || read >= ptrs.max / 2 || remain == ptrs.max {
          maxSizeDone := Word(Window(ptrs.max, 0, false));
          WordPacked(Window(ptrs.max, 0, false));
          report := Some(Word(Window(ptrs.max, read, false)));
          WordPacked(Window(ptrs.max, read, false));
        } else {
          maxSizeDone := Word(ptrs.(done := read));
          WordPacked(ptrs.(done := read));
        }
      } else {
        maxSizeDone := Word(ptrs.(done := l));
        WordPacked(ptrs.(done := l));
        report := Some(Word(Window(ptrs.max, ptrs.done, false)));
        WordPacked(Window(ptrs.max, ptrs.done, false));
      }
    }
  }
}
