/**
 The tag Bandwidth carries from a sent message to its delivery reports (bandwidth-base.ts): printed
 when the message is sent, split again when a report comes back.
 */
module Tags {
  import opened Common
  import opened Delimited

  function PrintTag(messageId: string, originalCreatedAt: string): string {
    "v1" + [BAR] + messageId + [BAR] + originalCreatedAt
  }

  /** No tag, an unknown version, which is an error, or the parts a report is resolved by. */
  datatype Resolution =
    | NoTag
    | UnrecognizedVersion
    | Info(messageId: Option<string>, originalCreatedAt: Option<string>)

  function Part(parts: seq<string>, i: nat): Option<string> {
    if i < |parts| then Some(parts[i]) else None
  }

  function DlrResolutionInfoFromTag(tag: string): Resolution {
    if tag == "" then NoTag else
      var parts := Split(tag, BAR);
      if parts[0] == "v1" then Info(Part(parts, 1), Part(parts, 2)) else UnrecognizedVersion
  }

  /** The report resolves to the message that was sent if and only if neither part has a bar in it. */
  lemma RoundTripExactly(id: string, at: string)
    ensures PrintTag(id, at) == "v1|" + id + "|" + at
    ensures DlrResolutionInfoFromTag(PrintTag(id, at)) == Info(Some(id), Some(at)) <==> '|' !in id && '|' !in at
  {
    var tag, rest := PrintTag(id, at), id + [BAR] + at;
    assert tag == "v1" + [BAR] + rest;
    SplitFirst("v1", rest, BAR);
    SplitPartition(rest, BAR);
    assert Split(tag, BAR)[1] == Split(rest, BAR)[0];
    if BAR !in id {
      SplitFirst(id, at, BAR);
      SplitPartition(at, BAR);
      assert Split(tag, BAR)[2] == Split(at, BAR)[0];
      if BAR !in at {
        SplitWhole(at, BAR);
      }
    }
  }

  /** So different messages have different tags, */
  lemma TagsDiffer(id: string, at: string, id': string, at': string)
    requires BAR !in id && BAR !in at && BAR !in id' && BAR !in at'
    requires PrintTag(id, at) == PrintTag(id', at')
    ensures id == id' && at == at'
  {
    RoundTripExactly(id, at);
    RoundTripExactly(id', at');
  }

  /** while with bars two messages can share one. */
  lemma TagsCanCollide()
    ensures PrintTag("a|b", "c") == PrintTag("a", "b|c")
  {
    assert PrintTag("a|b", "c") == "v1|a|b|c" == PrintTag("a", "b|c");
  }

  /** A report is an error exactly for a tag whose text before the first bar is not v1. */
  lemma ErrorsExactly(tag: string, version: string, rest: string)
    requires BAR !in version && (tag == version || tag == version + [BAR] + rest)
    ensures DlrResolutionInfoFromTag(tag) == UnrecognizedVersion <==> tag != "" && version != "v1"
  {
    if tag == version {
      SplitWhole(tag, BAR);
    } else {
      SplitFirst(version, rest, BAR);
    }
  }
}
