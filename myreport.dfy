/**
 * The client's report page: the masking of the personal data it shows,
 * the status progress bar, the "Report Removed" banner, and the chat box
 * with its image attachments.
 */
module MyReport {
  import opened Js
  import opened CaseStatus
  import opened Files

  // ---------------------------------------------------------------------
  // Masking

  /** One space-separated part of a name: parts up to two characters stay, longer ones keep only their ends. */
  function MaskPart(p: string): (m: string)
    ensures |m| == |p|
    ensures |p| <= 2 ==> m == p
    ensures |p| > 2 ==> m[0] == p[0] && m[|p| - 1] == p[|p| - 1]
    ensures |p| > 2 ==> forall i :: 0 < i < |p| - 1 ==> m[i] == '*'
  {
    if |p| <= 2 then p else [p[0]] + Repeat('*', |p| - 2) + [p[|p| - 1]]
  }

  function MaskParts(parts: seq<string>): (r: seq<string>)
    ensures |r| == |parts| && forall k :: 0 <= k < |parts| ==> r[k] == MaskPart(parts[k])
  {
    seq(|parts|, k requires 0 <= k < |parts| => MaskPart(parts[k]))
  }

  /** `maskName`; None is `undefined`. */
  function MaskName(name: Option<string>): (r: string)
    ensures name.None? || name == Some("") ==> r == ""
  {
    if name.None? || name.value == "" then ""
    else Join(MaskParts(Split(name.value, ' ')), ' ')
  }

  /** Masking a part never introduces a space. */
  lemma MaskPartKeepsSpaces(p: string)
    ensures ' ' in MaskPart(p) ==> ' ' in p
  {
    var m := MaskPart(p);
    if |p| > 2 && ' ' in m {
      var i :| 0 <= i < |m| && m[i] == ' ';
      assert i == 0 || i == |p| - 1;
    }
  }

  /** Masking a masked part changes nothing. */
  lemma MaskPartIdempotent(p: string)
    ensures MaskPart(MaskPart(p)) == MaskPart(p)
  {
  }

  /**
   * The mask keeps the name's shape: as many space-separated parts, each of
   * the same length and each the masked original part, and so the same length overall.
   */
  lemma MaskNameShape(name: string)
    requires name != ""
    ensures Split(MaskName(Some(name)), ' ') == MaskParts(Split(name, ' '))
    ensures |MaskName(Some(name))| == |name|
  {
    var parts := Split(name, ' ');
    var masked := MaskParts(parts);
    SplitPartsFree(name, ' ');
    forall k | 0 <= k < |masked| ensures ' ' !in masked[k] {
      MaskPartKeepsSpaces(parts[k]);
    }
    SplitJoin(masked, ' ');
    var lens := seq(|parts|, k requires 0 <= k < |parts| => |parts[k]|);
    JoinLength(parts, ' ', lens);
    JoinLength(masked, ' ', lens);
    JoinSplit(name, ' ');
  }

  /** `maskName` is idempotent. */
  lemma MaskNameIdempotent(name: Option<string>)
    ensures MaskName(Some(MaskName(name))) == MaskName(name)
  {
    if name.Some? && name.value != "" {
      var parts := Split(name.value, ' ');
      MaskNameShape(name.value);
      var m := MaskName(name);
      assert m != "";
      var again := MaskParts(MaskParts(parts));
      assert again == MaskParts(parts) by {
        forall k | 0 <= k < |parts| ensures again[k] == MaskParts(parts)[k] {
          MaskPartIdempotent(parts[k]);
        }
      }
    }
  }

  /** `maskNumber`; None is `undefined`. */
  function MaskNumber(phone: Option<string>): (r: string)
    ensures phone.None? ==> r == ""
    ensures phone.Some? && |phone.value| < 7 ==> r == phone.value
    ensures phone.Some? && |phone.value| >= 7 ==>
      |r| == 11 && r[..2] == phone.value[..2] && r[2..10] == Repeat('*', 8) && r[10] == phone.value[|phone.value| - 1]
  {
    if phone.None? then ""
    else if |phone.value| < 7 then phone.value
    else
      var p := phone.value;
      SliceInRange(p, 0, 2);
      SliceFromNegative(p, 1);
      Slice(p, 0, 2) + "********" + SliceFrom(p, -1)
  }

  /** A masked number of seven or more digits shows only its first two and last digits. */
  lemma MaskNumberHidesMiddle(a: string, b: string)
    requires |a| >= 7 && |b| >= 7
    requires a[..2] == b[..2] && a[|a| - 1] == b[|b| - 1]
    ensures MaskNumber(Some(a)) == MaskNumber(Some(b))
  {
    var x, y := MaskNumber(Some(a)), MaskNumber(Some(b));
    assert forall i :: 0 <= i < 11 ==> x[i] == y[i] by {
      forall i | 0 <= i < 11 ensures x[i] == y[i] {
        if i < 2 { assert x[i] == x[..2][i] && y[i] == y[..2][i]; }
        else if i < 10 { assert x[i] == x[2..10][i - 2] && y[i] == y[2..10][i - 2]; }
      }
    }
  }

  // ---------------------------------------------------------------------
  // Progress and banner

  /** `getProgressPercentage`; a missing status is "". */
  function Progress(status: string): (p: int)
    ensures 0 <= p <= 100
    ensures p == 100 <==> status == Completed
    ensures p == 0 <==> status !in {Assigned, UnderInvestigation, InProgress, Completed}
  {
    if status == Assigned then 2
    else if status == UnderInvestigation then 33
    else if status == InProgress then 64
    else if status == Completed then 100
    else 0
  }

  /** The bar never goes back as a case moves forward along the pipeline. */
  lemma ProgressAlongPipeline(a: Status, b: Status)
    requires a != IsRemoved && b != IsRemoved && Rank(a) <= Rank(b)
    ensures Progress(Name(a)) <= Progress(Name(b))
  {
  }

  /** The pipeline statuses before assignment, and removal, show no progress. */
  lemma NoProgressBeforeAssignment(s: Status)
    ensures Progress(Name(s)) == 0 <==> s in {IsReview, IsUnassigned, IsRemoved}
  {
  }

  /** The banner test as the page writes it: `status == 'Removed'`. */
  predicate ShowsRemovedAsWritten(status: string)
  {
    status == RemovedBanner
  }

  /** The banner is never shown for a status some page writes, removal included. */
  lemma RemovedBannerNeverShown(s: Status)
    ensures !ShowsRemovedAsWritten(Name(s))
  {
    RemovedBannerNeverWritten(s);
  }

  /** The banner test matching the status the Remove button writes. */
  predicate ShowsRemoved(status: string)
  {
    status == Removed
  }

  /** The corrected banner shows exactly for removed cases. */
  lemma RemovedBannerShownWhenRemoved(s: Status)
    ensures ShowsRemoved(Name(s)) <==> s == IsRemoved
  {
  }

  // ---------------------------------------------------------------------
  // Chat

  /** A chat message document. */
  datatype ChatMessage = ChatMessage(kind: string, message: string, createdAt: int, sentBy: string)

  /** The message `handleSendMessage` writes for the text, the attached images' addresses and the sender. */
  function Compose(text: string, imageCount: nat, urls: seq<string>, sender: string, now: int): (m: ChatMessage)
    ensures m.kind == (if imageCount > 0 then "file" else "chat")
    ensures m.sentBy == sender && m.createdAt == now
  {
    ChatMessage(if imageCount > 0 then "file" else "chat",
                if imageCount > 0 then Join(urls, ',') else text, now, sender)
  }

  /** A file message carries the addresses and drops the text; the addresses split back out of it. */
  lemma FileMessageAddresses(text: string, urls: seq<string>, sender: string, now: int)
    requires |urls| >= 1 && forall k :: 0 <= k < |urls| ==> ',' !in urls[k]
    ensures Split(Compose(text, |urls|, urls, sender, now).message, ',') == urls
  {
    SplitJoin(urls, ',');
  }

  /** A chat message carries exactly the typed text. */
  lemma ChatMessageIsText(text: string, sender: string, now: int)
    ensures Compose(text, 0, [], sender, now) == ChatMessage("chat", text, now, sender)
  {
  }

  class ChatBox {
    /** The case document id from the session; None or "" when there is none. */
    var userId: Option<string>
    var newMessage: string
    var images: seq<File>
    var isSending: bool
    /** The case's `chats` sub-collection, in write order. */
    var chats: seq<ChatMessage>

    constructor (userId: Option<string>, chats: seq<ChatMessage>)
      ensures this.userId == userId && this.chats == chats
      ensures newMessage == "" && images == [] && !isSending
    {
      this.userId, this.chats := userId, chats;
      newMessage, images, isSending := "", [], false;
    }

    /** `handleFileChange`: the accepted images of the selection go after the earlier ones, in order. */
    method FileChange(selected: Option<seq<File>>)
      modifies this`images
      ensures selected.None? ==> images == old(images)
      ensures selected.Some? ==> images == old(images) + Filter(selected.value, IsImage)
    {
      if selected.None? {
        return;
      }
      var files := selected.value;
      var newImages: seq<File> := [];
      var i := 0;
      while i < |files|
        invariant 0 <= i <= |files|
        invariant newImages == Filter(files[..i], IsImage)
        modifies {}
      {
        FilterSnoc(files[..i], files[i], IsImage);
        assert files[..i + 1] == files[..i] + [files[i]];
        if IsImage(files[i]) {
          newImages := newImages + [files[i]];
        }
        i := i + 1;
      }
      assert files[..i] == files;
      images := images + newImages;
    }

    /** `removeImage`: drops exactly the image at that position. */
    method RemoveImage(index: int)
      modifies this`images
      ensures images == RemoveAt(old(images), index)
    {
      images := RemoveAt(images, index);
    }

    /**
     * `handleSendMessage`.  `uploads[j]` is the download address of image j,
     * None when its upload fails; `fail` is whether writing the message fails.
     * Nothing is sent without a case id, or with neither text nor images;
     * otherwise the images are uploaded in order, the first failure stops the
     * send, and a sent message clears the text and the images.
     */
    method SendMessage(uploads: seq<Option<string>>, now: int, fail: bool)
      requires |uploads| == |images|
      modifies this`newMessage, this`images, this`isSending, this`chats
      ensures var wanted := userId.Some? && userId.value != "" && (old(newMessage) != "" || |old(images)| > 0);
        var sent := wanted && AllUploaded(uploads) && !fail;
        && (!wanted ==> isSending == old(isSending))
        && (wanted ==> !isSending)
        && (sent ==> chats == old(chats) + [Compose(old(newMessage), |old(images)|, Urls(uploads), userId.value, now)]
                     && newMessage == "" && images == [])
        && (!sent ==> chats == old(chats) && newMessage == old(newMessage) && images == old(images))
    {
      if userId.None? || userId.value == "" || (newMessage == "" && |images| == 0) {
        return;
      }
      isSending := true;
      var uploaded: seq<string> := [];
      var i := 0;
      var ok := true;
      while ok && i < |images|
        invariant 0 <= i <= |images|
        invariant |uploaded| == i && forall j :: 0 <= j < i ==> uploads[j].Some? && uploaded[j] == uploads[j].value
        invariant !ok ==> !AllUploaded(uploads)
        modifies {}
      {
        if uploads[i].None? {
          ok := false;
        } else {
          uploaded := uploaded + [uploads[i].value];
          i := i + 1;
        }
      }
      if ok && !fail {
        assert uploaded == Urls(uploads);
        chats := chats + [Compose(newMessage, |images|, uploaded, userId.value, now)];
        newMessage := "";
        images := [];
      }
      isSending := false;
    }
  }
}
