/**
 * The in-memory Loki push payload (internal/loki): a stream is a label map plus
 * an ordered list of [timestamp, line] pairs, a batch an ordered list of streams.
 */
module Loki {
  import opened Wrappers
  import opened Strconv

  /** JSON field names of the wire format. */
  const StreamsTag := "streams"
  const LabelsTag := "stream"
  const EntriesTag := "values"

  /** The value of a stream as a batch holds it. */
  datatype StreamValue = StreamValue(labels: map<string, string>, entries: seq<seq<string>>)

  class Stream {
    var Labels: map<string, string>
    var Entries: seq<seq<string>>

    /** NewStream: no labels and no entries. */
    constructor ()
      ensures Labels == map[] && Entries == []
    {
      Labels := map[];
      Entries := [];
    }

    function Value(): (v: StreamValue)
      reads this
      ensures v.labels == Labels && v.entries == Entries
    {
      StreamValue(Labels, Entries)
    }

    /** Sets one label, replacing an earlier value for the same key. */
    method AddLabel(key: string, value: string)
      modifies this
      ensures key in Labels && Labels[key] == value
      ensures forall k :: k != key ==> (k in Labels <==> k in old(Labels))
      ensures forall k :: k != key && k in Labels ==> Labels[k] == old(Labels)[k]
      ensures Labels == old(Labels)[key := value]
      ensures Entries == old(Entries)
    {
      Labels := Labels[key := value];
    }

    /**
     * Appends the pair [time in decimal, entry]. The time text reads back as
     * the same integer, so no precision is lost.
     */
    method AddEntry(t: Int64, entry: string)
      modifies this
      ensures Entries == old(Entries) + [[FormatInt(t), entry]]
      ensures |Entries| == |old(Entries)| + 1 && |Entries[|Entries| - 1]| == 2
      ensures ParseDecimal(Entries[|Entries| - 1][0]) == Some(t as int)
      ensures Entries[|Entries| - 1][1] == entry
      ensures Labels == old(Labels)
    {
      var timeStr := FormatInt(t);
      ParseFormatInt(t);
      Entries := Entries + [[timeStr, entry]];
    }
  }

  class Batch {
    var Streams: seq<StreamValue>

    /** NewBatch: no streams. */
    constructor ()
      ensures Streams == []
    {
      Streams := [];
    }

    /** Appends a copy of the stream's current value after all earlier streams. */
    method AddStream(s: Stream)
      modifies this
      ensures Streams == old(Streams) + [s.Value()]
      ensures |Streams| == |old(Streams)| + 1
      ensures Streams[..|old(Streams)|] == old(Streams)
    {
      Streams := Streams + [s.Value()];
    }
  }

  /**
   * A client of Stream and Batch: adding streams s[0], ..., s[n-1] to a new
   * batch, one AddStream after another, gives exactly their values in that order.
   */
  method BatchOf(s: seq<Stream>) returns (b: Batch)
    ensures fresh(b)
    ensures |b.Streams| == |s|
    ensures forall i :: 0 <= i < |s| ==> b.Streams[i] == s[i].Value()
  {
    b := new Batch();
    var i := 0;
    while i < |s|
      invariant 0 <= i <= |s|
      invariant |b.Streams| == i
      invariant forall j :: 0 <= j < i ==> b.Streams[j] == s[j].Value()
    {
      b.AddStream(s[i]);
      i := i + 1;
    }
  }
}
