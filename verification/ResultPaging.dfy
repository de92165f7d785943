/**
 read_tool_result: retained evidence is read in pages. A page is the longest
 stretch of characters whose encoding fits the byte budget, found by bisection.
 */
module ResultPaging {
  import opened Options
  import opened Wire

  const PAGE_RUNES := 6000
  const PAGE_BYTES := 7000

  /** What was retained for a call; the arguments may not have been. */
  datatype Retained = Retained(content: string, observedData: string, arguments: Option<string>)

  datatype Field = Content | ObservedData | Arguments

  /** The request, already validated: an absent limit is zero. `meta` is the encoded size of the receipt
      and of all keys, which is the same for every page of one field. */
  datatype Request = Request(callId: string, field: Field, offset: nat, limit: nat)

  datatype PageError = ResultNotFound | NoObservedData | NoArguments | OffsetTooLarge(total: nat) | MetadataTooLarge

  datatype Page = Page(offset: nat, next: nat, total: nat, done: bool, text: string)

  datatype Result = Ok(page: Page) | Err(error: PageError)

  function PageOf(content: string, offset: nat, end: nat): Page
    requires offset <= end <= |content|
  {
    Page(offset, end, |content|, end == |content|, content[offset..end])
  }

  function PageLen(meta: nat, p: Page): nat {
    meta + |Decimal(p.offset)| + |Decimal(p.next)| + |Decimal(p.total)| + (if p.done then 4 else 5) + StringLen(p.text)
  }

  predicate Fits(meta: nat, content: string, offset: nat, end: nat)
    requires offset <= end <= |content|
  {
    PageLen(meta, PageOf(content, offset, end)) <= PAGE_BYTES
  }

  /** A longer page is never smaller: `done` gets one byte shorter at the very end, but at least one more
      character makes up for it. */
  lemma PageGrows(meta: nat, content: string, offset: nat, end: nat)
    requires offset <= end < |content|
    ensures PageLen(meta, PageOf(content, offset, end)) <= PageLen(meta, PageOf(content, offset, end + 1))
  {
    DecimalWidth(end, end + 1);
    assert content[offset..end + 1] == content[offset..end] + [content[end]];
    EscapedLenConcat(content[offset..end], [content[end]]);
    EscapedLenAtLeast([content[end]]);
  }

  lemma {:induction false} FitsIsDownward(meta: nat, content: string, offset: nat, low: nat, high: nat)
    requires offset <= low <= high <= |content| && Fits(meta, content, offset, high)
    ensures Fits(meta, content, offset, low)
    decreases high - low
  {
    if low < high {
      PageGrows(meta, content, offset, high - 1);
      FitsIsDownward(meta, content, offset, low, high - 1);
    }
  }

  function LimitOf(limit: nat): nat {
    if limit == 0 then PAGE_RUNES else limit
  }

  /** Where a page would end without the byte budget. */
  function Wanted(content: string, offset: nat, limit: nat): (end: nat)
    requires offset <= |content|
    ensures offset <= end <= |content|
  {
    if LimitOf(limit) < |content| - offset then offset + LimitOf(limit) else |content|
  }

  /** The smallest page that makes progress; at the end of the content the empty one. */
  function SmallestEnd(content: string, offset: nat): (end: nat)
    requires offset <= |content|
    ensures offset <= end <= |content|
  {
    if offset < |content| then offset + 1 else offset
  }

  /** end is where the page ends: the longest stretch within the limit that fits. */
  predicate IsPageEnd(meta: nat, content: string, offset: nat, limit: nat, end: nat)
    requires offset <= |content|
  {
    && offset <= end <= Wanted(content, offset, limit)
    && Fits(meta, content, offset, end)
    && forall e :: end < e <= Wanted(content, offset, limit) ==> !Fits(meta, content, offset, e)
  }

  /** Such a page has at most the wanted number of characters, or 6000 if none was wanted, and is encoded in at most 7000
      bytes; one that is longer is not, or goes beyond the limit. */
  lemma PageIsLongest(meta: nat, content: string, offset: nat, limit: nat, end: nat)
    requires offset <= |content| && IsPageEnd(meta, content, offset, limit, end)
    ensures end <= |content| && end - offset <= (if limit == 0 then 6000 else limit)
    ensures PageLen(meta, Page(offset, end, |content|, end == |content|, content[offset..end])) <= 7000
    ensures forall e :: end < e <= |content| && e - offset <= (if limit == 0 then 6000 else limit) ==>
              PageLen(meta, Page(offset, e, |content|, e == |content|, content[offset..e])) > 7000
  {
    hide PageLen;
    forall e | end < e <= |content| && e - offset <= (if limit == 0 then 6000 else limit)
      ensures PageLen(meta, Page(offset, e, |content|, e == |content|, content[offset..e])) > 7000
    {
      assert !Fits(meta, content, offset, e);
    }
  }

  /** The bisection for an end that fits; the start itself if nothing does. */
  method LongestFit(meta: nat, content: string, offset: nat, end: nat) returns (low: nat)
    requires offset <= end <= |content|
    ensures offset <= low <= end
    ensures low > offset ==> Fits(meta, content, offset, low)
    ensures forall e :: low < e <= end ==> !Fits(meta, content, offset, e)
  {
    low := offset;
    var high := end;
    while low < high
      invariant offset <= low <= high <= end
      invariant low > offset ==> Fits(meta, content, offset, low)
      invariant forall e :: high < e <= end ==> !Fits(meta, content, offset, e)
    {
      var mid := (low + high + 1) / 2;
      if Fits(meta, content, offset, mid) {
        low := mid;
      } else {
        forall e | mid <= e <= end ensures !Fits(meta, content, offset, e) {
          if Fits(meta, content, offset, e) { FitsIsDownward(meta, content, offset, mid, e); }
        }
        high := mid - 1;
      }
    }
  }

  /** One page of one field. It is the longest that fits; there is none exactly when not even the smallest
      page that makes progress fits. */
  method ReadPage(meta: nat, content: string, offset: nat, limit: nat) returns (r: Result)
    ensures r == Err(OffsetTooLarge(|content|)) <==> offset > |content|
    ensures offset <= |content| ==>
              (r == Err(MetadataTooLarge) <==> !Fits(meta, content, offset, SmallestEnd(content, offset)))
              && (r.Err? ==> r.error.MetadataTooLarge?)
    ensures r.Ok? ==> offset <= |content|
                      && IsPageEnd(meta, content, offset, limit, r.page.next) && r.page == PageOf(content, offset, r.page.next)
                      && (offset < |content| ==> r.page.next > offset)
  {
    if offset > |content| {
      return Err(OffsetTooLarge(|content|));
    }
    var end := Wanted(content, offset, limit);
    if Fits(meta, content, offset, end) {
      FitsIsDownward(meta, content, offset, SmallestEnd(content, offset), end);
      return Ok(PageOf(content, offset, end));
    }
    var low := LongestFit(meta, content, offset, end);
    if !Fits(meta, content, offset, low) || (low == offset && offset < |content|) {
      return Err(MetadataTooLarge);
    }
    FitsIsDownward(meta, content, offset, SmallestEnd(content, offset), low);
    r := Ok(PageOf(content, offset, low));
  }

  // ----- choosing the field -----

  function Chosen(retained: map<string, Retained>, q: Request): (r: (string, Option<PageError>)) {
    if q.callId !in retained then ("", Some(ResultNotFound))
    else match q.field
      case Content => (retained[q.callId].content, None)
      case ObservedData =>
        if retained[q.callId].observedData == "" then ("", Some(NoObservedData)) else (retained[q.callId].observedData, None)
      case Arguments =>
        if retained[q.callId].arguments.None? then ("", Some(NoArguments)) else (retained[q.callId].arguments.value, None)
  }

  /** Execute, after the arguments were validated. */
  method Execute(retained: map<string, Retained>, meta: nat, q: Request) returns (r: Result)
    ensures Chosen(retained, q).1.Some? ==> r == Err(Chosen(retained, q).1.value)
    ensures Chosen(retained, q).1.None? ==>
              var text := Chosen(retained, q).0;
              r.Ok? <==> q.offset <= |text| && Fits(meta, text, q.offset, SmallestEnd(text, q.offset))
    ensures Chosen(retained, q).1.None? && r.Ok? ==>
              var text := Chosen(retained, q).0;
              q.offset <= |text| && IsPageEnd(meta, text, q.offset, q.limit, r.page.next)
              && r.page == PageOf(text, q.offset, r.page.next)
    ensures Chosen(retained, q).1.None? && r.Err? ==>
              r.error == if q.offset > |Chosen(retained, q).0| then OffsetTooLarge(|Chosen(retained, q).0|) else MetadataTooLarge
    ensures r == Err(ResultNotFound) <==> q.callId !in retained
    ensures r == Err(NoObservedData) <==> q.callId in retained && q.field.ObservedData? && retained[q.callId].observedData == ""
    ensures r == Err(NoArguments) <==> q.callId in retained && q.field.Arguments? && retained[q.callId].arguments.None?
    ensures r.Ok? ==>
              var text := match q.field
                case Content => retained[q.callId].content
                case ObservedData => retained[q.callId].observedData
                case Arguments => retained[q.callId].arguments.value;
              r.page == Page(q.offset, r.page.next, |text|, r.page.next == |text|, text[q.offset..r.page.next])
  {
    if q.callId !in retained {
      return Err(ResultNotFound);
    }
    var original := retained[q.callId];
    var content := original.content;
    if q.field.ObservedData? {
      if original.observedData == "" {
        return Err(NoObservedData);
      }
      content := original.observedData;
    }
    if q.field.Arguments? {
      if original.arguments.None? {
        return Err(NoArguments);
      }
      content := original.arguments.value;
    }
    r := ReadPage(meta, content, q.offset, q.limit);
  }

  // ----- reading to the end -----

  /** Every page has room for at least one character, or for the empty end. */
  ghost predicate Readable(meta: nat, content: string) {
    forall offset :: 0 <= offset <= |content| ==> Fits(meta, content, offset, SmallestEnd(content, offset))
  }

  /** A reader that follows nextOffset from 0 gets exactly the retained content, whatever limits it asks
      for; it is stopped only where not even one character fits beside the metadata. */
  method ReadAll(meta: nat, content: string, limits: nat -> nat) returns (text: string, failed: Option<nat>, pages: nat)
    ensures failed.None? ==> text == content && pages <= |content| + 1
    ensures failed.Some? ==> failed.value <= |content| && text == content[..failed.value]
                             && !Fits(meta, content, failed.value, SmallestEnd(content, failed.value))
    ensures Readable(meta, content) ==> failed.None?
  {
    text, failed, pages := "", None, 0;
    var offset := 0;
    while true
      invariant 0 <= offset <= |content| && text == content[..offset] && pages <= offset
      decreases |content| - offset
    {
      var r := ReadPage(meta, content, offset, limits(pages));
      if r.Err? {
        failed := Some(offset);
        return;
      }
      assert content[..offset] + content[offset..r.page.next] == content[..r.page.next];
      text := text + r.page.text;
      pages := pages + 1;
      if r.page.done {
        assert content[..|content|] == content;
        return;
      }
      offset := r.page.next;
    }
  }

  /** A receipt that leaves the largest character and three of the longest offsets their room can always
      be read to its end. */
  lemma {:induction false} SmallMetadataIsReadable(meta: nat, content: string)
    requires meta + 3 * |Decimal(|content|)| + 13 <= PAGE_BYTES
    ensures Readable(meta, content)
  {
    forall offset | 0 <= offset <= |content| ensures Fits(meta, content, offset, SmallestEnd(content, offset)) {
      var end := SmallestEnd(content, offset);
      DecimalWidth(offset, |content|);
      DecimalWidth(end, |content|);
      EscapedLenAtLeast(content[offset..end]);
    }
  }
}
