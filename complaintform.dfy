/** The new-complaint form (app/tambahKeluhan.js): the text fields, the tag
    buttons that overwrite the complaint text, and the submit handler with its
    uid guard and multipart payload. */
module ComplaintForm {
  import opened Js
  import opened Api
  import opened Ui
  import Complaints

  /** The four tag buttons. */
  datatype Tag = JagaJakarta | KekerasanSeksual | Transaksi | KeterlambatanBus

  function TagText(t: Tag): (s: string)
    ensures s != ""
  {
    match t
    case JagaJakarta => "#JagaJakarta"
    case KekerasanSeksual => "Kekerasan Seksual"
    case Transaksi => "Transaksi"
    case KeterlambatanBus => "Keterlambatan Bus"
  }

  /** Every tag writes a different text. */
  lemma TagTextInjective(a: Tag, b: Tag)
    ensures TagText(a) == TagText(b) <==> a == b
  {
  }

  const FailedAlert := Notice("Error", "Gagal menambahkan keluhan.")
  const NoUserAlert := Notice("Error", "User tidak ditemukan, silakan login ulang.")
  const AddedAlert := Notice("Sukses", "Keluhan berhasil ditambahkan!")

  /** `user.data.user.uid`, read strictly: a missing step throws, and
      otherwise it is the same id the complaints page reads optionally. */
  function SubmitterId(user: Value): (r: Result<Value>)
    ensures Nullish(user) ==> r.TypeError?
    ensures r.Ok? ==> r.value == Complaints.UserIdOf(user)
    ensures r.TypeError? ==> Complaints.UserIdOf(user) == Undefined
  {
    Path(user, ["data", "user", "uid"])
  }

  /** The field names of a multipart payload, in append order. */
  function Keys(payload: seq<(string, Value)>): (ks: seq<string>)
    ensures |ks| == |payload|
    ensures forall i :: 0 <= i < |payload| ==> ks[i] == payload[i].0
  {
    seq(|payload|, i requires 0 <= i < |payload| => payload[i].0)
  }

  /** The form's state. */
  class Form {
    var keluhan: string
    var nomorBus: string
    var rute: string

    constructor ()
      ensures keluhan == "" && nomorBus == "" && rute == ""
    {
      keluhan := "";
      nomorBus := "";
      rute := "";
    }

    /** A tag button replaces the complaint text wholesale. */
    method PressTag(t: Tag)
      modifies this
      ensures keluhan == TagText(t) && nomorBus == old(nomorBus) && rute == old(rute)
    {
      keluhan := TagText(t);
    }

    method SetKeluhan(text: string)
      modifies this
      ensures keluhan == text && nomorBus == old(nomorBus) && rute == old(rute)
    {
      keluhan := text;
    }

    method SetNomorBus(text: string)
      modifies this
      ensures nomorBus == text && keluhan == old(keluhan) && rute == old(rute)
    {
      nomorBus := text;
    }

    method SetRute(text: string)
      modifies this
      ensures rute == text && keluhan == old(keluhan) && nomorBus == old(nomorBus)
    {
      rute := text;
    }

    /** handleSubmit with the signed-in `user` and the outcome of the upload.
        `payload` is the form data posted, if the upload was attempted. */
    method HandleSubmit(user: Value, uploadResp: Fetch<Value>)
      returns (payload: Option<seq<(string, Value)>>, alert: Alert, nav: Navigation)
      ensures SubmitterId(user).TypeError? ==> payload == None && alert == FailedAlert && nav == Stay
      ensures SubmitterId(user).Ok? && !Truthy(SubmitterId(user).value) ==>
        payload == None && alert == NoUserAlert && nav == Stay
      ensures payload.Some? <==> SubmitterId(user).Ok? && Truthy(SubmitterId(user).value)
      ensures payload.Some? ==>
        && Keys(payload.value) == ["id_user", "keluhan_text", "nomor_bus", "rute"]
        && payload.value[0].1 == SubmitterId(user).value
        && payload.value[1].1 == Str(keluhan)
        && payload.value[2].1 == Str(nomorBus)
        && payload.value[3].1 == Str(rute)
      ensures payload.Some? && uploadResp.Resolved? ==> alert == AddedAlert && nav == Replace("/keluhanPage")
      ensures payload.Some? && uploadResp.Rejected? ==> alert == FailedAlert && nav == Stay
    {
      var read := Path(user, ["data", "user", "uid"]);
      if read.TypeError? {
        return None, FailedAlert, Stay;
      }
      var idUser := read.value;
      if !Truthy(idUser) {
        return None, NoUserAlert, Stay;
      }
      var formData: seq<(string, Value)> := [];
      formData := formData + [("id_user", idUser)];
      formData := formData + [("keluhan_text", Str(keluhan))];
      formData := formData + [("nomor_bus", Str(nomorBus))];
      formData := formData + [("rute", Str(rute))];
      payload := Some(formData);
      if uploadResp.Rejected? {
        alert, nav := FailedAlert, Stay;
      } else {
        alert, nav := AddedAlert, Replace("/keluhanPage");
      }
    }
  }

  /** The form's submitter id and the complaints page's user id agree
      whenever the submit gets past its guard, so a complaint stored with the
      submitted `id_user` shows on that page as the submitter's own. */
  lemma SubmittedComplaintIsMine(user: Value, c: Complaints.Complaint)
    requires SubmitterId(user).Ok? && Truthy(SubmitterId(user).value) && Primitive(SubmitterId(user).value)
    requires c.idUser == SubmitterId(user).value
    ensures Complaints.UserIdOf(user) == SubmitterId(user).value
    ensures Complaints.IsMine(c, Complaints.UserIdOf(user))
    ensures Complaints.DisplayName(c, Complaints.UserIdOf(user)) == Str("Anda")
  {
  }
}
