/**
 * The WhatsApp notice a supplier receives when a PO is created: a summary of at most
 * eight item lines, a suffix counting the items left out, the PO note (or "-"), and a
 * `phone|supplierName` target. A missing gateway token or a phone that does not
 * normalise stops it before any message is built. The HTTP post is not modelled.
 */
module AlertSupply {
  import opened Common
  import opened Text
  import opened Phone

  const MaxLines := 8

  /** One item of the PO summary. */
  datatype SummaryItem = SummaryItem(name: string, qtyPack: int, pricePerPack: int)

  datatype Notice = Notice(target: string, message: string)

  datatype NoticeError = MissingToken | InvalidPhone

  /** `• name — qty pack @ price`, with `fmt` standing for `toLocaleString()`. */
  function ItemLine(it: SummaryItem, fmt: int -> string): string
  {
    "• " + it.name + " — " + fmt(it.qtyPack) + " pack @ " + fmt(it.pricePerPack)
  }

  /** `items.slice(0, 8).map(...)`. */
  function ItemLines(items: seq<SummaryItem>, fmt: int -> string): (r: seq<string>)
    ensures |r| == if |items| <= MaxLines then |items| else MaxLines
    ensures forall i :: 0 <= i < |r| ==> r[i] == ItemLine(items[i], fmt)
  {
    var shown := if |items| <= MaxLines then items else items[..MaxLines];
    seq(|shown|, i requires 0 <= i < |shown| => ItemLine(shown[i], fmt))
  }

  /** The "and N more items" suffix. */
  function MoreSuffix(count: nat): (r: string)
    ensures r != "" <==> count > MaxLines
    ensures count > MaxLines ==> r == "\n…dan " + NatToString(count - MaxLines) + " item lainnya"
  {
    if count > MaxLines then "\n…dan " + NatToString(count - MaxLines) + " item lainnya" else ""
  }

  /** `note || '-'`. */
  function NoteText(note: Option<string>): (r: string)
    ensures r != ""
    ensures note.Some? && note.value != "" ==> r == note.value
  {
    if note.None? || note.value == "" then "-" else note.value
  }

  function Header(poCode: string): string
  {
    "Halo {name},\nPesanan pembelian *" + poCode + "* Dari Toko Ija Plastik telah dibuat.\n\nRincian singkat:\n"
  }

  function Footer(note: Option<string>): string
  {
    "\n\nCatatan: " + NoteText(note) + "\n\nMohon konfirmasi di sistem atau balas pesan ini.\nTerima kasih."
  }

  /** The message template, filled in. */
  function Message(poCode: string, items: seq<SummaryItem>, note: Option<string>, fmt: int -> string): (r: string)
    ensures |r| >= |Header(poCode)| + |Footer(note)|
    ensures r[..|Header(poCode)|] == Header(poCode)
    ensures r[|r| - |Footer(note)|..] == Footer(note)
    ensures r[|Header(poCode)|..|r| - |Footer(note)|] == Join(ItemLines(items, fmt), "\n") + MoreSuffix(|items|)
  {
    var head, body, foot := Header(poCode), Join(ItemLines(items, fmt), "\n") + MoreSuffix(|items|), Footer(note);
    assert (head + body + foot)[..|head|] == head;
    assert (head + body + foot)[|head| + |body|..] == foot;
    assert (head + body + foot)[|head|..|head| + |body|] == body;
    head + body + foot
  }

  /**
   * The message lists each of the first eight items on its own line and, past eight,
   * counts the rest; with at most eight items nothing follows the item lines.
   */
  lemma MessageListsItems(poCode: string, items: seq<SummaryItem>, note: Option<string>, fmt: int -> string, i: int)
    requires 0 <= i < |items| && i < MaxLines
    ensures Contains(Message(poCode, items, note, fmt), ItemLine(items[i], fmt))
  {
    var lines := ItemLines(items, fmt);
    var joined, more := Join(lines, "\n"), MoreSuffix(|items|);
    var m := Message(poCode, items, note, fmt);
    ContainsSlice(m, |Header(poCode)|, |m| - |Footer(note)|);
    ContainsHalves(joined, more);
    JoinContains(lines, "\n", i);
    ContainsTrans(joined + more, joined, lines[i]);
    ContainsTrans(m, joined + more, lines[i]);
  }

  /** Past eight items the message names how many were left out. */
  lemma MessageCountsRest(poCode: string, items: seq<SummaryItem>, note: Option<string>, fmt: int -> string)
    requires |items| > MaxLines
    ensures Contains(Message(poCode, items, note, fmt), "\n…dan " + NatToString(|items| - MaxLines) + " item lainnya")
  {
    var joined, more := Join(ItemLines(items, fmt), "\n"), MoreSuffix(|items|);
    var m := Message(poCode, items, note, fmt);
    ContainsSlice(m, |Header(poCode)|, |m| - |Footer(note)|);
    ContainsHalves(joined, more);
    ContainsTrans(m, joined + more, more);
  }

  /**
   * `sendPONotification` up to the post. `token` is the configured gateway token;
   * a falsy token or target phone is rejected first.
   */
  function PONotice(
    token: Option<string>, targetPhone: Option<string>, supplierName: string, poCode: string,
    items: seq<SummaryItem>, note: Option<string>, fmt: int -> string): (r: Result<Notice, NoticeError>)
    ensures (token.None? || token.value == "") ==> r == Err(MissingToken)
    ensures token.Some? && token.value != "" && NormalizePhoneTo62(targetPhone).None? ==> r == Err(InvalidPhone)
    ensures r.Ok? <==> token.Some? && token.value != "" && NormalizePhoneTo62(targetPhone).Some?
    ensures r.Ok? ==> r.value.target == NormalizePhoneTo62(targetPhone).value + "|" + supplierName
    ensures r.Ok? ==> r.value.message == Message(poCode, items, note, fmt)
  {
    if token.None? || token.value == "" then Err(MissingToken)
    else
      match NormalizePhoneTo62(targetPhone)
      case None => Err(InvalidPhone)
      case Some(phone) => Ok(Notice(phone + "|" + supplierName, Message(poCode, items, note, fmt)))
  }

  /**
   * The summary shows the first `min(8, n)` items, in order, and names the rest only by
   * their count: two PO item lists that agree on their first eight items and their length
   * give the same message.
   */
  lemma MessageSeesFirstEight(poCode: string, a: seq<SummaryItem>, b: seq<SummaryItem>, note: Option<string>, fmt: int -> string)
    requires |a| == |b|
    requires forall i :: 0 <= i < |a| && i < MaxLines ==> a[i] == b[i]
    ensures Message(poCode, a, note, fmt) == Message(poCode, b, note, fmt)
  {
    var la, lb := ItemLines(a, fmt), ItemLines(b, fmt);
    assert la == lb by {
      assert |la| == |lb|;
      forall i | 0 <= i < |la|
        ensures la[i] == lb[i]
      {
      }
    }
  }

  /** The target carries a number that is all digits and does not start with "0". */
  lemma TargetIsNormalised(
    token: Option<string>, targetPhone: Option<string>, supplierName: string, poCode: string,
    items: seq<SummaryItem>, note: Option<string>, fmt: int -> string)
    requires PONotice(token, targetPhone, supplierName, poCode, items, note, fmt).Ok?
    ensures var t := PONotice(token, targetPhone, supplierName, poCode, items, note, fmt).value.target;
      exists k :: 0 < k < |t| && AllDigits(t[..k]) && t[k] == '|' && t[0] != '0' && t[k + 1..] == supplierName
  {
    var phone := NormalizePhoneTo62(targetPhone).value;
    var t := phone + "|" + supplierName;
    assert t[..|phone|] == phone && t[|phone|] == '|' && t[|phone| + 1..] == supplierName;
    assert t[0] == phone[0];
    assert phone[..1] != "0";
  }
}
