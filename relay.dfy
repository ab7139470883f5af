/**
 * The field diff of `on_notify` (main.py): one change event of the
 * `client_update` channel carries the old and the new image of a row, and each
 * watched field whose new value is non-empty and differs from the old one is
 * forwarded to the row's user, text first, then the product photo, then the
 * receipt photo.
 */
module Relay {
  import opened Base

  datatype Field = NotifText | ProductPhotoPath | ReceiptPhotoPath

  /** The position of a field in the order the handler checks them. */
  function Rank(f: Field): nat {
    match f
    case NotifText => 0
    case ProductPhotoPath => 1
    case ReceiptPhotoPath => 2
  }

  /**
   * One row image of the parsed payload: JSON `null`, or an object. A key the
   * object lacks, or holds `null` for, reads as None (`dict.get`); a payload
   * without the key "old" or "new" yields an object with every field None.
   */
  datatype Image =
    | Null
    | Obj(tgUserId: Option<int>, notifText: Option<string>,
          productPhotoPath: Option<string>, receiptPhotoPath: Option<string>)

  datatype Event = Event(oldImage: Image, newImage: Image)

  function Get(img: Image, f: Field): Option<string>
    requires img.Obj?
  {
    match f
    case NotifText => img.notifText
    case ProductPhotoPath => img.productPhotoPath
    case ReceiptPhotoPath => img.receiptPhotoPath
  }

  /** Python truthiness of a string value: present and non-empty. */
  predicate Truthy(v: Option<string>) {
    v.Some? && v.value != ""
  }

  /** Python truthiness of an id: present and non-zero. */
  predicate TruthyId(v: Option<int>) {
    v.Some? && v.value != 0
  }

  /**
   * `int(new.get('tg_user_id') or old.get('tg_user_id'))`, or None when the
   * expression raises (a `null` image has no `get`, `int(None)` fails).
   */
  function Recipient(ev: Event): (r: Option<int>)
    ensures r.Some? <==>
      ev.newImage.Obj? && (TruthyId(ev.newImage.tgUserId) || (ev.oldImage.Obj? && ev.oldImage.tgUserId.Some?))
  {
    if ev.newImage.Null? then None
    else if TruthyId(ev.newImage.tgUserId) then ev.newImage.tgUserId
    else if ev.oldImage.Null? then None
    else ev.oldImage.tgUserId
  }

  /** `new_value and new_value != old.get(field)`. */
  predicate Changed(ev: Event, f: Field)
    requires ev.oldImage.Obj? && ev.newImage.Obj?
  {
    Truthy(Get(ev.newImage, f)) && Get(ev.newImage, f) != Get(ev.oldImage, f)
  }

  /** What a send carries: the text, a local file, or an opaque remote photo reference. */
  datatype Content = Text(body: string) | LocalFile(path: string) | RemoteRef(ref: string)

  datatype Delivery = Delivery(chat: int, field: Field, content: Content)

  /**
   * The content sent for a field: the text itself, or a photo that is uploaded
   * from disk when `isLocal` (standing for `os.path.exists`) holds of its path.
   */
  function ContentOf(f: Field, v: string, isLocal: string -> bool): Content {
    if f == NotifText then Text(v)
    else if isLocal(v) then LocalFile(v)
    else RemoteRef(v)
  }

  function FieldDelivery(ev: Event, f: Field, chat: int, isLocal: string -> bool): (ds: seq<Delivery>)
    requires ev.oldImage.Obj? && ev.newImage.Obj?
    ensures |ds| <= 1 && (ds != [] <==> Changed(ev, f))
    ensures forall d :: d in ds ==> d.chat == chat && d.field == f
  {
    if Changed(ev, f) then [Delivery(chat, f, ContentOf(f, Get(ev.newImage, f).value, isLocal))] else []
  }

  /**
   * The sends of one event when none of them fails. With an old image that is
   * `null`, the first non-empty new field raises before its send, so nothing
   * is sent; without a recipient the handler raises before any send.
   */
  function Planned(ev: Event, isLocal: string -> bool): (ds: seq<Delivery>)
    ensures |ds| <= 3
    ensures forall i, j :: 0 <= i < j < |ds| ==> Rank(ds[i].field) < Rank(ds[j].field)
    ensures forall i :: 0 <= i < |ds| ==> Recipient(ev) == Some(ds[i].chat)
  {
    if ev.oldImage.Null? || Recipient(ev).None? then []
    else
      var chat := Recipient(ev).value;
      FieldDelivery(ev, NotifText, chat, isLocal)
      + FieldDelivery(ev, ProductPhotoPath, chat, isLocal)
      + FieldDelivery(ev, ReceiptPhotoPath, chat, isLocal)
  }

  /**
   * The sends that reach the user when the send at position `failAt` raises:
   * one `try` covers all three, so the failing send and every later one of
   * the same event are lost.
   */
  function Delivered(ev: Event, isLocal: string -> bool, failAt: Option<nat>): (ds: seq<Delivery>)
    ensures ds <= Planned(ev, isLocal)
    ensures failAt.None? || failAt.value >= |Planned(ev, isLocal)| ==> ds == Planned(ev, isLocal)
    ensures failAt.Some? && failAt.value < |Planned(ev, isLocal)| ==> |ds| == failAt.value
  {
    var ds := Planned(ev, isLocal);
    if failAt.Some? && failAt.value < |ds| then ds[..failAt.value] else ds
  }

  /** The recipient is the new image's id when that is set, else the old image's. */
  lemma RecipientNewElseOld(ev: Event)
    requires ev.oldImage.Obj? && ev.newImage.Obj?
    ensures TruthyId(ev.newImage.tgUserId) ==> Recipient(ev) == ev.newImage.tgUserId
    ensures !TruthyId(ev.newImage.tgUserId) ==> Recipient(ev) == ev.oldImage.tgUserId
  {
  }

  /**
   * A field is sent, at most once, exactly when both images are objects, a
   * recipient resolves, and the field's new value is non-empty and differs
   * from the old one; its content is the new value.
   */
  lemma SentIffChanged(ev: Event, isLocal: string -> bool, f: Field)
    ensures (exists i :: 0 <= i < |Planned(ev, isLocal)| && Planned(ev, isLocal)[i].field == f)
        <==> ev.oldImage.Obj? && ev.newImage.Obj? && Recipient(ev).Some? && Changed(ev, f)
    ensures forall i :: 0 <= i < |Planned(ev, isLocal)| && Planned(ev, isLocal)[i].field == f ==>
        ev.newImage.Obj? && Planned(ev, isLocal)[i].content == ContentOf(f, Get(ev.newImage, f).value, isLocal)
  {
    var ds := Planned(ev, isLocal);
    if ev.oldImage.Obj? && ev.newImage.Obj? && Recipient(ev).Some? {
      var chat := Recipient(ev).value;
      var a, b, c := FieldDelivery(ev, NotifText, chat, isLocal),
                     FieldDelivery(ev, ProductPhotoPath, chat, isLocal),
                     FieldDelivery(ev, ReceiptPhotoPath, chat, isLocal);
      assert ds == a + b + c;
      if Changed(ev, f) {
        var i := match f
          case NotifText => 0
          case ProductPhotoPath => |a|
          case ReceiptPhotoPath => |a| + |b|;
        assert ds[i].field == f;
      }
    }
  }

  /** An event whose watched fields all equal their old values sends nothing. */
  lemma UnchangedSendsNothing(ev: Event, isLocal: string -> bool)
    requires ev.oldImage.Obj? && ev.newImage.Obj?
    requires forall f: Field :: Get(ev.newImage, f) == Get(ev.oldImage, f)
    ensures Planned(ev, isLocal) == []
  {
    assert !Changed(ev, NotifText) && !Changed(ev, ProductPhotoPath) && !Changed(ev, ReceiptPhotoPath);
  }

  /** When only the receipt photo changes to a non-empty value, exactly that photo is sent. */
  lemma OnlyReceiptChanged(ev: Event, isLocal: string -> bool)
    requires ev.oldImage.Obj? && ev.newImage.Obj? && Recipient(ev).Some?
    requires ev.newImage.notifText == ev.oldImage.notifText && ev.newImage.productPhotoPath == ev.oldImage.productPhotoPath
    requires Truthy(ev.newImage.receiptPhotoPath) && ev.newImage.receiptPhotoPath != ev.oldImage.receiptPhotoPath
    ensures |Planned(ev, isLocal)| == 1
    ensures Planned(ev, isLocal)[0] ==
      Delivery(Recipient(ev).value, ReceiptPhotoPath, ContentOf(ReceiptPhotoPath, ev.newImage.receiptPhotoPath.value, isLocal))
  {
    assert !Changed(ev, NotifText) && !Changed(ev, ProductPhotoPath) && Changed(ev, ReceiptPhotoPath);
  }

  /**
   * A failing send truncates the event: the sends before it are delivered in
   * order and none after it; without a failure every planned send is delivered.
   */
  lemma FailureTruncates(ev: Event, isLocal: string -> bool, failAt: Option<nat>)
    ensures var ds, ps := Delivered(ev, isLocal, failAt), Planned(ev, isLocal);
      && ds <= ps
      && (failAt.None? ==> ds == ps)
      && (failAt.Some? && failAt.value < |ps| ==> |ds| == failAt.value && ps[failAt.value] !in ds)
  {
    var ds, ps := Delivered(ev, isLocal, failAt), Planned(ev, isLocal);
    if failAt.Some? && failAt.value < |ps| {
      var k := failAt.value;
      forall i | 0 <= i < k ensures ds[i] != ps[k] {
        assert Rank(ps[i].field) < Rank(ps[k].field);
      }
    }
  }
}
