/**
 * The scan screen (src/pages/ScanPage.tsx): a four-stage workflow (pick a
 * photo, preview it, scan it, show the diagnosis) and the newest-first
 * history of diagnoses, capped at 50, kept in local storage.
 *
 * The file reader, the object URL, the proxy call, `crypto.randomUUID` and
 * the clock are parameters of the handlers that use them.
 */
module ScanPage {
  import opened Wrappers
  import opened Strings
  import opened DiagnosisTypes
  import opened Storage
  import Proxy = AnalyzeImage

  datatype Stage = Upload | Preview | Scanning | Results

  /** A picked file: its MIME type (`file.type`) and name. */
  datatype File = File(mimeType: string, name: string)

  /** Why an analysis ended back in the preview stage. */
  datatype ScanFailure =
    | ReadFailed                       // the file reader reported an error
    | InvokeFailed(message: string)    // the proxy call returned an error
    | HistoryUnreadable                // the stored history is not a list

  /** The most diagnoses the history keeps. */
  const HistoryCap := 50

  /** The part of a data URL after its first comma, up to the next one: `dataUrl.split(",")[1]`. */
  function Payload(dataUrl: string): (r: Option<string>)
    ensures r.None? <==> ',' !in dataUrl
    ensures r.Some? ==> ',' !in r.value
    ensures r.Some? ==> exists i | 0 <= i < |dataUrl| ::
      && dataUrl[i] == ',' && ',' !in dataUrl[..i]
      && i + 1 + |r.value| <= |dataUrl|
      && dataUrl[i + 1..i + 1 + |r.value|] == r.value
      && (i + 1 + |r.value| == |dataUrl| || dataUrl[i + 1 + |r.value|] == ',')
  {
    var pieces := Split(dataUrl, ',');
    JoinSplit(dataUrl, ',');
    if |pieces| >= 2 then
      SecondPiece(dataUrl);
      Some(pieces[1])
    else
      None
  }

  /** The second piece of a split follows the first separator and runs to the next separator or the end. */
  lemma {:induction false} SecondPiece(s: string)
    requires |Split(s, ',')| >= 2
    ensures var pieces := Split(s, ',');
      var i, p := |pieces[0]|, pieces[1];
      && i + 1 + |p| <= |s|
      && s[i] == ',' && s[..i] == pieces[0]
      && s[i + 1..i + 1 + |p|] == p
      && (i + 1 + |p| == |s| || s[i + 1 + |p|] == ',')
  {
    var pieces := Split(s, ',');
    JoinSplit(s, ',');
    var i, p := |pieces[0]|, pieces[1];
    var tail := Join(pieces[1..], ',');
    assert s == pieces[0] + [','] + tail;
    var e := i + 1 + |p|;
    if |pieces| == 2 {
      assert tail == p;
    } else {
      assert pieces[1..][1..] == pieces[2..];
      assert tail == p + [','] + Join(pieces[2..], ',');
      assert s[e] == ',';
    }
    assert s[i + 1..e] == p;
  }

  /**
   * The reader's data URL for a file of type `mime` holding base64 text `b`
   * yields `b` as payload, and the proxy's rebuilt data URL is the reader's.
   */
  lemma {:induction false} PayloadRoundTrip(mime: string, b: string)
    requires mime != "" && ',' !in mime && ',' !in b
    ensures Payload("data:" + mime + ";base64," + b) == Some(b)
    ensures Proxy.DataUrl(Some(mime), b) == "data:" + mime + ";base64," + b
  {
    var head := "data:" + mime + ";base64";
    assert "data:" + mime + ";base64," + b == head + [','] + b;
    assert ',' !in head by {
      assert head == "data:" + mime + ";base64";
    }
    SplitAtFirstSeparator(head, b, ',');
    SplitNoSeparator(b, ',');
  }

  /**
   * The stored diagnosis: the proxy's answer with the client's `id`,
   * `timestamp` and `imageUrl` in place of its own; every other field is
   * the answer's.
   */
  function Merge(data: DiagnosisResult, id: string, timestamp: string, imageUrl: string): (r: DiagnosisResult)
    ensures r.id == id && r.timestamp == timestamp && r.imageUrl == imageUrl
    ensures r.(id := data.id, timestamp := data.timestamp, imageUrl := data.imageUrl) == data
  {
    data.(id := id, timestamp := timestamp, imageUrl := imageUrl)
  }

  /**
   * The history after one diagnosis: `d` is put in front, and when that makes
   * the list longer than the cap its last (oldest) entry is dropped.
   */
  function WithNewest(h: seq<DiagnosisResult>, d: DiagnosisResult): (r: seq<DiagnosisResult>)
    ensures |r| == if |h| < HistoryCap then |h| + 1 else |h|
    ensures r[0] == d
    ensures r[1..] == h[..|r| - 1]
    ensures |h| <= HistoryCap ==> |r| == Min(|h| + 1, HistoryCap)
  {
    var grown := [d] + h;
    if |grown| > HistoryCap then grown[..|grown| - 1] else grown
  }

  /** The history after a series of diagnoses, the first of `ds` analysed first. */
  function AfterAll(h: seq<DiagnosisResult>, ds: seq<DiagnosisResult>): seq<DiagnosisResult>
    decreases |ds|
  {
    if ds == [] then h else AfterAll(WithNewest(h, ds[0]), ds[1..])
  }

  function Reversed<T>(s: seq<T>): (r: seq<T>)
    ensures |r| == |s|
    decreases |s|
  {
    if s == [] then [] else Reversed(s[1..]) + [s[0]]
  }

  function Min(a: int, b: int): int
  {
    if a < b then a else b
  }

  lemma {:induction false} PrefixOfTruncated<T>(r: seq<T>, x: seq<T>, m: nat, k: nat)
    requires m <= |x| && k <= |r| + m
    ensures (r + x[..m])[..k] == (r + x)[..k]
  {
    assert forall i | 0 <= i < k :: (r + x[..m])[i] == (r + x)[i];
  }

  /** Within the cap, one diagnosis puts it in front and cuts the list to the cap. */
  lemma {:induction false} WithNewestWithinCap(h: seq<DiagnosisResult>, d: DiagnosisResult)
    requires |h| <= HistoryCap
    ensures WithNewest(h, d) == ([d] + h)[..Min(|h| + 1, HistoryCap)]
  {
    var r := WithNewest(h, d);
    assert r == [r[0]] + r[1..];
  }

  /**
   * From a history within the cap, any series of diagnoses leaves exactly the
   * 50 most recent diagnoses, newest first: the series reversed, then the
   * earlier history, cut to the cap.
   */
  lemma {:induction false} HistoryKeepsNewest(h: seq<DiagnosisResult>, ds: seq<DiagnosisResult>)
    requires |h| <= HistoryCap
    ensures AfterAll(h, ds) == (Reversed(ds) + h)[..Min(|ds| + |h|, HistoryCap)]
    decreases |ds|
  {
    if ds == [] {
      assert Reversed(ds) + h == h;
    } else {
      var d, rest := ds[0], ds[1..];
      var h1 := WithNewest(h, d);
      var m := Min(|h| + 1, HistoryCap);
      var k := Min(|ds| + |h|, HistoryCap);
      WithNewestWithinCap(h, d);
      HistoryKeepsNewest(h1, rest);
      calc {
        AfterAll(h, ds);
        AfterAll(h1, rest);
        (Reversed(rest) + h1)[..k];
        (Reversed(rest) + ([d] + h)[..m])[..k];
        { PrefixOfTruncated(Reversed(rest), [d] + h, m, k); }
        (Reversed(rest) + ([d] + h))[..k];
        { ReversedFront(ds, h); }
        (Reversed(ds) + h)[..k];
      }
    }
  }

  /** Reversing a non-empty list puts its first element last. */
  lemma {:induction false} ReversedFront<T>(s: seq<T>, t: seq<T>)
    requires s != []
    ensures Reversed(s) + t == Reversed(s[1..]) + ([s[0]] + t)
  {
    var r := Reversed(s[1..]);
    assert Reversed(s) == r + [s[0]];
    assert (r + [s[0]]) + t == r + ([s[0]] + t);
  }

  class ScanPage {
    var stage: Stage
    var imageFile: Option<File>
    var imageUrl: string
    var result: Option<DiagnosisResult>
    /** Every stage the screen has shown, oldest first. */
    ghost var shown: seq<Stage>
    const storage: LocalStorage

    constructor (storage: LocalStorage)
      ensures stage == Upload && imageFile == None && imageUrl == "" && result == None
      ensures shown == [Upload]
      ensures this.storage == storage
    {
      stage := Upload;
      imageFile := None;
      imageUrl := "";
      result := None;
      shown := [Upload];
      this.storage := storage;
    }

    /**
     * `handleFile`: an image is held with its object URL and previewed; a file
     * of any other type changes nothing.
     */
    method HandleFile(file: File, objectUrl: string) returns (accepted: bool)
      modifies this
      ensures accepted <==> StartsWith(file.mimeType, "image/")
      ensures accepted ==> stage == Preview && imageFile == Some(file) && imageUrl == objectUrl
                           && shown == old(shown) + [Preview]
      ensures !accepted ==> stage == old(stage) && imageFile == old(imageFile) && imageUrl == old(imageUrl)
                            && shown == old(shown)
      ensures result == old(result)
    {
      if !StartsWith(file.mimeType, "image/") {
        accepted := false;
        return;
      }
      accepted := true;
      imageFile := Some(file);
      imageUrl := objectUrl;
      stage := Preview;
      shown := shown + [Preview];
    }

    /** `handleDrop`: the first dropped file, if any, is handled as a picked file. */
    method HandleDrop(files: seq<File>, objectUrl: string) returns (accepted: bool)
      modifies this
      ensures accepted <==> |files| > 0 && StartsWith(files[0].mimeType, "image/")
      ensures accepted ==> stage == Preview && imageFile == Some(files[0]) && imageUrl == objectUrl
                           && shown == old(shown) + [Preview]
      ensures !accepted ==> stage == old(stage) && imageFile == old(imageFile) && imageUrl == old(imageUrl)
                            && shown == old(shown)
      ensures result == old(result)
    {
      accepted := false;
      if |files| > 0 {
        accepted := HandleFile(files[0], objectUrl);
      }
    }

    /** `reset`: back to the upload stage with nothing held, from any stage. */
    method Reset()
      modifies this
      ensures stage == Upload && imageFile == None && imageUrl == "" && result == None
      ensures shown == old(shown) + [Upload]
    {
      stage := Upload;
      imageFile := None;
      imageUrl := "";
      result := None;
      shown := shown + [Upload];
    }

    /**
     * `analyzeImage`. `read` is what the file reader produced (a data URL, or
     * None on a read error), `reply` what the proxy call returned, `id` and
     * `timestamp` the fresh identifier and the current time. `sent` is the
     * request body the proxy received, if the call was made.
     */
    method AnalyzeImage(read: Option<string>, reply: Result<DiagnosisResult, string>,
                        id: string, timestamp: string)
      returns (sent: Option<Proxy.RequestBody>, failure: Option<ScanFailure>)
      modifies this, storage
      // Without a held file nothing happens.
      ensures old(imageFile).None? ==>
        && stage == old(stage) && shown == old(shown) && result == old(result)
        && storage.items == old(storage.items) && sent.None? && failure.None?
      // The held file and its URL are kept whatever the outcome.
      ensures imageFile == old(imageFile) && imageUrl == old(imageUrl)
      // The proxy receives the data URL's payload and the file's type, once the file is read.
      ensures sent.Some? <==> old(imageFile).Some? && read.Some?
      ensures sent.Some? ==> sent.value == Proxy.RequestBody(Payload(read.value), Some(old(imageFile).value.mimeType))
      // The failures, in the order they can occur.
      ensures old(imageFile).Some? && read.None? ==> failure == Some(ReadFailed)
      ensures old(imageFile).Some? && read.Some? && reply.Failure? ==> failure == Some(InvokeFailed(reply.error))
      ensures (old(imageFile).Some? && read.Some? && reply.Success?
               && StoredHistory(old(storage.GetItem(HistoryKey))).None?) ==> failure == Some(HistoryUnreadable)
      ensures (old(imageFile).Some? && read.Some? && reply.Success?
               && StoredHistory(old(storage.GetItem(HistoryKey))).Some?) ==> failure.None?
      // A failure shows the preview again and stores nothing.
      ensures failure.Some? ==>
        && stage == Preview && shown == old(shown) + [Scanning, Preview]
        && result == old(result) && storage.items == old(storage.items)
      // Success: the merged diagnosis is shown and becomes the newest history entry.
      ensures old(imageFile).Some? && failure.None? ==>
        && read.Some? && reply.Success? && StoredHistory(old(storage.GetItem(HistoryKey))).Some?
        && var diagnosis := Merge(reply.value, id, timestamp, old(imageUrl));
        && stage == Results && shown == old(shown) + [Scanning, Results]
        && result == Some(diagnosis)
        && storage.items == old(storage.items)[HistoryKey :=
             Entries(WithNewest(StoredHistory(old(storage.GetItem(HistoryKey))).value, diagnosis))]
    {
      sent, failure := None, None;
      if imageFile.None? {
        return;
      }
      stage := Scanning;
      shown := shown + [Scanning];
      if read.None? {
        failure := Some(ReadFailed);
      } else {
        sent := Some(Proxy.RequestBody(Payload(read.value), Some(imageFile.value.mimeType)));
        if reply.Failure? {
          failure := Some(InvokeFailed(reply.error));
        } else {
          var diagnosis := Merge(reply.value, id, timestamp, imageUrl);
          var stored := StoredHistory(storage.GetItem(HistoryKey));
          if stored.None? {
            failure := Some(HistoryUnreadable);
          } else {
            var history := stored.value;
            history := [diagnosis] + history;
            if |history| > HistoryCap {
              history := history[..|history| - 1];
            }
            storage.SetItem(HistoryKey, Entries(history));
            result := Some(diagnosis);
            stage := Results;
            shown := shown + [Results];
            return;
          }
        }
      }
      stage := Preview;
      shown := shown + [Preview];
    }
  }
}
