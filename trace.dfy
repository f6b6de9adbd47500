/** What a deployment run does, as an ordered trace of abstract events: text
    sent to the log sink, the SSH session and shell being opened, directories
    made and files put over SFTP, bytes written to the shell, resources
    released. */
module Trace {
  import opened JavaLang

  datatype Resource = InputStream | OutputStream | ShellChannel | SshSession

  datatype Event =
    | Log(text: string)                      // Log.print(text)
    | Connect(host: Option<string>, port: int, user: Option<string>, password: Option<string>)
    | OpenShell                              // openChannelShell + channel.connect
    | MakeDir(path: string)                  // channelSftp.mkdir
    | Upload(local: string, remote: string)  // channelSftp.put(local file, remote file)
    | Write(data: string)                    // bytes written to the shell's output stream
    | Release(resource: Resource)            // close / disconnect of one resource

  /** `Log.println(s)`, which is `print(s + "\n")`. */
  function Println(s: string): Event {
    Log(s + "\n")
  }

  /** The events a step produced and the exception it ended with, if any. */
  datatype Outcome = Outcome(events: seq<Event>, failure: Option<JavaException>)

  function Done(events: seq<Event>): Outcome {
    Outcome(events, None)
  }

  function Throw(events: seq<Event>, e: JavaException): Outcome {
    Outcome(events, Some(e))
  }

  /** Run `b` after `a` unless `a` threw. */
  function Then(a: Outcome, b: Outcome): Outcome {
    if a.failure.Some? then a else Outcome(a.events + b.events, b.failure)
  }

  predicate IsNetwork(e: Event) {
    e.Connect? || e.OpenShell? || e.MakeDir? || e.Upload? || e.Write?
  }

  /** Every event is a write to the shell. */
  predicate OnlyWrites(events: seq<Event>) {
    forall i :: 0 <= i < |events| ==> events[i].Write?
  }

  /** `e` occurs, and every other event is a write to the shell. */
  predicate WritesBesides(events: seq<Event>, e: Event) {
    e in events && forall i :: 0 <= i < |events| ==> events[i].Write? || events[i] == e
  }

  lemma OnlyWritesAppend(a: seq<Event>, b: seq<Event>)
    requires OnlyWrites(a) && OnlyWrites(b)
    ensures OnlyWrites(a + b)
  {
    forall i | 0 <= i < |a + b|
      ensures (a + b)[i].Write?
    {
      if i >= |a| {
        assert (a + b)[i] == b[i - |a|];
      }
    }
  }

  /** The data written to the shell, in order. */
  function Writes(events: seq<Event>): seq<string> {
    if |events| == 0 then []
    else (if events[0].Write? then [events[0].data] else []) + Writes(events[1..])
  }

  /** The uploads, in order. */
  function Uploads(events: seq<Event>): seq<Event> {
    if |events| == 0 then []
    else (if events[0].Upload? then [events[0]] else []) + Uploads(events[1..])
  }

  lemma {:induction false} WritesAppend(a: seq<Event>, b: seq<Event>)
    ensures Writes(a + b) == Writes(a) + Writes(b)
  {
    if |a| == 0 {
      assert a + b == b;
    } else {
      WritesAppend(a[1..], b);
      assert (a + b)[1..] == a[1..] + b;
      assert (a + b)[0] == a[0];
      Assoc(if a[0].Write? then [a[0].data] else [], Writes(a[1..]), Writes(b));
    }
  }

  lemma {:induction false} UploadsAppend(a: seq<Event>, b: seq<Event>)
    ensures Uploads(a + b) == Uploads(a) + Uploads(b)
  {
    if |a| == 0 {
      assert a + b == b;
    } else {
      UploadsAppend(a[1..], b);
      assert (a + b)[1..] == a[1..] + b;
      assert (a + b)[0] == a[0];
      Assoc(if a[0].Upload? then [a[0]] else [], Uploads(a[1..]), Uploads(b));
    }
  }

  /** No event of `events` writes to the shell exactly when `Writes` is empty. */
  lemma {:induction false} WritesEmpty(events: seq<Event>)
    ensures Writes(events) == [] <==> forall i :: 0 <= i < |events| ==> !events[i].Write?
  {
    if |events| > 0 {
      WritesEmpty(events[1..]);
      assert forall i :: 1 <= i < |events| ==> events[1..][i - 1] == events[i];
    }
  }

  /** No event of `events` uploads exactly when `Uploads` is empty. */
  lemma {:induction false} UploadsEmpty(events: seq<Event>)
    ensures Uploads(events) == [] <==> forall i :: 0 <= i < |events| ==> !events[i].Upload?
  {
    if |events| > 0 {
      UploadsEmpty(events[1..]);
      assert forall i :: 1 <= i < |events| ==> events[1..][i - 1] == events[i];
    }
  }

  /** Nothing is uploaded after something was written to the shell. */
  predicate NoUploadAfterWrite(events: seq<Event>) {
    forall i, j :: 0 <= i < j < |events| && events[i].Write? ==> !events[j].Upload?
  }

  /** `data` was written to the shell before every upload. */
  predicate WrittenBeforeUpload(events: seq<Event>, data: string) {
    forall j :: 0 <= j < |events| && events[j].Upload? ==> Write(data) in events[..j]
  }

  /** A part that writes nothing followed by a part that uploads nothing
      never uploads after a write. */
  lemma {:induction false} QuietThenNoUploads(a: seq<Event>, b: seq<Event>)
    requires Writes(a) == [] && Uploads(b) == []
    ensures NoUploadAfterWrite(a + b)
  {
    WritesEmpty(a);
    UploadsEmpty(b);
    var es := a + b;
    forall i, j | 0 <= i < j < |es| && es[i].Write?
      ensures !es[j].Upload?
    {
      if i >= |a| {
        assert es[j] == b[j - |a|];
      }
    }
  }

  /** A write that follows a part without uploads precedes every upload. */
  lemma {:induction false} WriteFirst(a: seq<Event>, data: string, b: seq<Event>)
    requires Uploads(a) == []
    ensures WrittenBeforeUpload(a + [Write(data)] + b, data)
  {
    UploadsEmpty(a);
    var es := a + [Write(data)] + b;
    forall j | 0 <= j < |es| && es[j].Upload?
      ensures Write(data) in es[..j]
    {
      if j >= |a| {
        assert es[..j][|a|] == Write(data);
      }
    }
  }

  /** A quiet part, then a part that writes nothing, then a part that
      uploads nothing: the writes are the last part's, the uploads the middle
      part's, and nothing is uploaded after a write. */
  lemma {:induction false} UploadsThenWrites(quiet: seq<Event>, up: seq<Event>, post: seq<Event>)
    requires Writes(quiet) == [] && Uploads(quiet) == []
    requires Writes(up) == [] && Uploads(post) == []
    ensures Writes(quiet + up + post) == Writes(post)
    ensures Uploads(quiet + up + post) == Uploads(up)
    ensures NoUploadAfterWrite(quiet + up + post)
  {
    WritesAppend(quiet, up);
    UploadsAppend(quiet, up);
    WritesAppend(quiet + up, post);
    UploadsAppend(quiet + up, post);
    QuietThenNoUploads(quiet + up, post);
  }

  /** A write in front of `rest` adds itself to the writes, no upload, and
      precedes every upload. */
  lemma {:induction false} WriteBeforeRest(data: string, rest: seq<Event>)
    ensures Writes([Write(data)] + rest) == [data] + Writes(rest)
    ensures Uploads([Write(data)] + rest) == Uploads(rest)
    ensures WrittenBeforeUpload([Write(data)] + rest, data)
  {
    WritesAppend([Write(data)], rest);
    UploadsAppend([Write(data)], rest);
    assert [Write(data)] == [] + [Write(data)];
    assert Writes([Write(data)]) == [data];
    assert Uploads([Write(data)]) == [];
    WriteFirst([], data, rest);
    assert [] + [Write(data)] + rest == [Write(data)] + rest;
  }

  /** A prefix without uploads keeps every upload of `b` preceded by `data`. */
  lemma {:induction false} UploadFreePrefix(a: seq<Event>, b: seq<Event>, data: string)
    requires Uploads(a) == [] && WrittenBeforeUpload(b, data)
    ensures WrittenBeforeUpload(a + b, data)
  {
    UploadsEmpty(a);
    var es := a + b;
    forall j | 0 <= j < |es| && es[j].Upload?
      ensures Write(data) in es[..j]
    {
      assert es[j] == b[j - |a|];
      var k :| 0 <= k < j - |a| && b[..j - |a|][k] == Write(data);
      assert es[..j][|a| + k] == Write(data);
    }
  }

  /** Every write that precedes an upload writes `data`: apart from `data`,
      the shell is written to only after every upload. */
  predicate OnlyBeforeUploads(events: seq<Event>, data: string) {
    forall i, j :: 0 <= i < j < |events| && events[i].Write? && events[j].Upload? ==> events[i].data == data
  }

  /** `data` written in front of a part that never uploads after a write. */
  lemma {:induction false} WriteInFront(es: seq<Event>, data: string, rest: seq<Event>)
    requires es == [Write(data)] + rest && NoUploadAfterWrite(rest)
    ensures OnlyBeforeUploads(es, data)
  {
    forall i, j | 0 <= i < j < |es| && es[i].Write? && es[j].Upload?
      ensures es[i].data == data
    {
    }
  }

  /** A prefix that writes nothing keeps `OnlyBeforeUploads`. */
  lemma {:induction false} WriteFreePrefix(es: seq<Event>, a: seq<Event>, b: seq<Event>, data: string)
    requires es == a + b && Writes(a) == [] && OnlyBeforeUploads(b, data)
    ensures OnlyBeforeUploads(es, data)
  {
    WritesEmpty(a);
    forall i, j | 0 <= i < j < |es| && es[i].Write? && es[j].Upload?
      ensures es[i].data == data
    {
      if i >= |a| {
        assert es[i] == b[i - |a|] && es[j] == b[j - |a|];
      }
    }
  }

  /** A part that writes nothing and uploads at most `u`, then a part that
      uploads nothing: at most `u` is uploaded, and never after a write. */
  lemma {:induction false} UploadThenWrites(es: seq<Event>, a: seq<Event>, b: seq<Event>, u: Event)
    requires es == a + b
    requires Writes(a) == [] && (Uploads(a) == [] || Uploads(a) == [u]) && Uploads(b) == []
    ensures Uploads(es) == [] || Uploads(es) == [u]
    ensures NoUploadAfterWrite(es)
  {
    UploadsAppend(a, b);
    QuietThenNoUploads(a, b);
  }

  /** Two parts that neither write nor upload make one. */
  lemma {:induction false} QuietConcat(a: seq<Event>, b: seq<Event>)
    requires Writes(a) == [] && Uploads(a) == [] && Writes(b) == [] && Uploads(b) == []
    ensures Writes(a + b) == [] && Uploads(a + b) == []
  {
    WritesAppend(a, b);
    UploadsAppend(a, b);
  }

  /** The writes of four parts in a row, when only the last one writes. */
  lemma {:induction false} WritesOfLast(es: seq<Event>, a: seq<Event>, b: seq<Event>, c: seq<Event>, d: seq<Event>, ws: seq<string>)
    requires es == a + b + c + d
    requires Writes(a) == [] && Writes(b) == [] && Writes(c) == [] && Writes(d) == ws
    ensures Writes(es) == ws
  {
    WritesAppend(a, b);
    assert Writes(a + b) == [];
    WritesAppend(a + b, c);
    assert Writes(a + b + c) == [];
    WritesAppend(a + b + c, d);
  }

  /** The uploads of four parts in a row, when only the third one uploads. */
  lemma {:induction false} UploadsOfThird(es: seq<Event>, a: seq<Event>, b: seq<Event>, c: seq<Event>, d: seq<Event>, us: seq<Event>)
    requires es == a + b + c + d
    requires Uploads(a) == [] && Uploads(b) == [] && Uploads(c) == us && Uploads(d) == []
    ensures Uploads(es) == us
  {
    UploadsAppend(a, b);
    assert Uploads(a + b) == [];
    UploadsAppend(a + b, c);
    assert Uploads(a + b + c) == us;
    UploadsAppend(a + b + c, d);
  }

  /** Two quiet parts, then a part that writes nothing, then a part that
      uploads nothing: nothing is uploaded after a write. */
  lemma {:induction false} OrderOfParts(es: seq<Event>, a: seq<Event>, b: seq<Event>, c: seq<Event>, d: seq<Event>)
    requires es == a + b + c + d
    requires Writes(a) == [] && Uploads(a) == [] && Writes(b) == [] && Uploads(b) == []
    requires Writes(c) == [] && Uploads(d) == []
    ensures NoUploadAfterWrite(es)
  {
    QuietConcat(a, b);
    UploadsThenWrites(a + b, c, d);
  }

  /** Events that neither write nor upload (log lines, connecting, releases)
      contribute nothing to either list. */
  lemma {:induction false} Silent(events: seq<Event>)
    requires forall i :: 0 <= i < |events| ==> !events[i].Write? && !events[i].Upload?
    ensures Writes(events) == [] && Uploads(events) == []
  {
    WritesEmpty(events);
    UploadsEmpty(events);
  }
}
