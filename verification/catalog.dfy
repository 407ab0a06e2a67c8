/**
 * The glass-type catalog manager: the list last loaded from the backend, a
 * create/edit form, and the handlers that load, submit, edit and delete.
 * Every successful mutation reloads the list and reports it to the shell.
 */
module Catalog {
  import opened Api

  /** JavaScript truthiness of the edit target: `null` and `""` both mean
      "not editing". */
  predicate Editing(editId: Option<string>): (b: bool)
    ensures editId == None ==> !b
    ensures editId == Some("") ==> !b
    ensures b ==> editId.Some? && |editId.value| > 0
  {
    editId.Some? && editId.value != ""
  }

  /** `vidrio.grosor || ""`: a missing thickness shows as empty text. */
  function GrosorText(grosor: Option<string>): (r: string)
    ensures r == "" <==> grosor == None || grosor == Some("")
    ensures grosor.Some? ==> r == grosor.value
  {
    match grosor
    case Some(s) => s
    case None => ""
  }

  /** The path of one catalog record, the template `/api/vidrios/${id}` used
      by both the update and the delete request. */
  function RecordPath(id: string): (p: string)
  {
    GlassTypesPath + "/" + id
  }

  /** The request a form submission issues: an update of the edit target when
      there is one, a creation otherwise, never both. The update path of an id
      always extends the creation path with "/" and the id, so the two never
      coincide. */
  function SubmitRequest(editId: Option<string>, body: Body): (req: Request)
    ensures req.body == body
    ensures req.verb == PUT <==> Editing(editId)
    ensures req.verb == POST <==> !Editing(editId)
    ensures Editing(editId) ==> req.path == RecordPath(editId.value)
    ensures !Editing(editId) ==> req.path == GlassTypesPath
  {
    if Editing(editId) then Request(PUT, RecordPath(editId.value), body)
    else Request(POST, GlassTypesPath, body)
  }

  /** The list after a load: the loaded data on success, unchanged otherwise. */
  function ListAfter(list: Outcome<seq<GlassType>>, prev: seq<GlassType>): (r: seq<GlassType>)
  {
    if list.Success? then list.data else prev
  }

  /** The error message after a load. */
  function ErrorAfter(list: Outcome<seq<GlassType>>): (message: string)
  {
    if list.Success? then "" else list.message
  }

  /** What a load reports to the shell: the loaded data, and nothing on failure. */
  function NotificationOf(list: Outcome<seq<GlassType>>): (notified: Option<seq<GlassType>>)
  {
    if list.Success? then Some(list.data) else None
  }

  const ListRequest := Request(GET, GlassTypesPath, NoBody)

  class GlassTypesManager {
    /** `Number(text)`, with `None` for NaN. */
    const toNumber: string -> Option<real>
    /** `Number.prototype.toString`. */
    const numberText: real -> string

    var vidrios: seq<GlassType>
    var nombre: string
    var grosor: string
    var precioM2: string
    var editId: Option<string>
    var error: string
    var loading: bool

    constructor (toNumber: string -> Option<real>, numberText: real -> string)
      ensures this.toNumber == toNumber && this.numberText == numberText
      ensures vidrios == [] && nombre == "" && grosor == "" && precioM2 == ""
      ensures editId == None && error == "" && !loading
    {
      this.toNumber := toNumber;
      this.numberText := numberText;
      vidrios := [];
      nombre, grosor, precioM2 := "", "", "";
      editId := None;
      error := "";
      loading := false;
    }

    /** The body the form currently describes: name and thickness as typed,
        and the price text converted with `Number`. */
    function FormBody(): (body: Body)
      reads this
    {
      GlassBody(nombre, grosor, toNumber(precioM2))
    }

    /** Load the list: on success it replaces the list and is reported to the
        shell with the same data; on failure the list stays and the message is
        shown. Loading is over either way. */
    method Load(list: Outcome<seq<GlassType>>) returns (req: Request, notified: Option<seq<GlassType>>)
      modifies this`vidrios, this`error, this`loading
      ensures req == ListRequest && !loading
      ensures vidrios == ListAfter(list, old(vidrios))
      ensures error == ErrorAfter(list) && notified == NotificationOf(list)
    {
      loading := true;
      error := "";
      req := ListRequest;
      match list {
        case Success(data) =>
          vidrios := data;
          notified := Some(data);
        case Failure(message) =>
          error := message;
          notified := None;
      }
      loading := false;
    }

    /** Clear the form and leave edit mode; nothing else changes. */
    method ClearForm()
      modifies this`nombre, this`grosor, this`precioM2, this`editId
      ensures nombre == "" && grosor == "" && precioM2 == "" && editId == None
    {
      nombre := "";
      grosor := "";
      precioM2 := "";
      editId := None;
    }

    /** Submit the form to the update or the create endpoint. Success clears
        the form, leaves edit mode and reloads the list; failure shows the
        message and keeps the form and the edit target. */
    method Submit(saved: Outcome<()>, reload: Outcome<seq<GlassType>>)
      returns (reqs: seq<Request>, notified: Option<seq<GlassType>>)
      modifies this`vidrios, this`error, this`loading, this`nombre, this`grosor, this`precioM2, this`editId
      ensures |reqs| > 0 && reqs[0] == SubmitRequest(old(editId), old(FormBody()))
      ensures saved.Success? ==> reqs == [reqs[0], ListRequest]
      ensures saved.Success? ==> nombre == "" && grosor == "" && precioM2 == "" && editId == None
      ensures saved.Success? ==> vidrios == ListAfter(reload, old(vidrios)) && !loading
      ensures saved.Success? ==> error == ErrorAfter(reload) && notified == NotificationOf(reload)
      ensures saved.Failure? ==> reqs == [reqs[0]] && notified == None && error == saved.message
      ensures saved.Failure? ==> nombre == old(nombre) && grosor == old(grosor) && precioM2 == old(precioM2)
      ensures saved.Failure? ==> editId == old(editId) && vidrios == old(vidrios) && loading == old(loading)
    {
      error := "";
      var first := SubmitRequest(editId, FormBody());
      match saved {
        case Success(_) =>
          ClearForm();
          var second;
          second, notified := Load(reload);
          reqs := [first, second];
        case Failure(message) =>
          error := message;
          reqs := [first];
          notified := None;
      }
    }

    /** Put a record in the form and make it the edit target; the list is not
        touched until the form is submitted. */
    method Edit(v: GlassType)
      modifies this`nombre, this`grosor, this`precioM2, this`editId
      ensures editId == Some(v.id) && nombre == v.nombre
      ensures grosor == GrosorText(v.grosor) && precioM2 == numberText(v.precioM2)
    {
      editId := Some(v.id);
      nombre := v.nombre;
      grosor := GrosorText(v.grosor);
      precioM2 := numberText(v.precioM2);
    }

    /** Delete after confirmation. Unconfirmed, nothing is called and nothing
        changes; confirmed, a successful delete reloads the list and a failed
        one shows the message. */
    method Delete(id: string, confirmed: bool, deleted: Outcome<()>, reload: Outcome<seq<GlassType>>)
      returns (reqs: seq<Request>, notified: Option<seq<GlassType>>)
      modifies this`vidrios, this`error, this`loading
      ensures !confirmed ==> reqs == [] && notified == None
      ensures !confirmed ==> vidrios == old(vidrios) && error == old(error) && loading == old(loading)
      ensures confirmed ==> |reqs| > 0 && reqs[0] == Request(DELETE, RecordPath(id), NoBody)
      ensures confirmed && deleted.Success? ==> reqs == [reqs[0], ListRequest]
      ensures confirmed && deleted.Success? ==> vidrios == ListAfter(reload, old(vidrios)) && !loading
      ensures confirmed && deleted.Success? ==> error == ErrorAfter(reload) && notified == NotificationOf(reload)
      ensures confirmed && deleted.Failure? ==> reqs == [reqs[0]] && notified == None && error == deleted.message
      ensures confirmed && deleted.Failure? ==> vidrios == old(vidrios) && loading == old(loading)
    {
      if !confirmed {
        return [], None;
      }
      var first := Request(DELETE, RecordPath(id), NoBody);
      match deleted {
        case Success(_) =>
          var second;
          second, notified := Load(reload);
          reqs := [first, second];
        case Failure(message) =>
          error := message;
          reqs := [first];
          notified := None;
      }
    }
  }

  /** Editing a record and submitting the form unchanged updates that same
      record with its own fields. A successful update leaves edit mode with an
      empty form; a failed one keeps the record in the form as the edit target. */
  method EditThenSubmit(m: GlassTypesManager, v: GlassType, saved: Outcome<()>, reload: Outcome<seq<GlassType>>)
    returns (reqs: seq<Request>)
    requires v.id != ""
    modifies m
    ensures |reqs| > 0 && reqs[0].verb == PUT && reqs[0].path == RecordPath(v.id)
    ensures reqs[0].body == GlassBody(v.nombre, GrosorText(v.grosor), m.toNumber(m.numberText(v.precioM2)))
    ensures saved.Success? ==> m.editId == None && m.nombre == "" && m.grosor == "" && m.precioM2 == ""
    ensures saved.Failure? ==> m.editId == Some(v.id) && m.nombre == v.nombre && m.grosor == GrosorText(v.grosor)
    ensures saved.Failure? ==> m.precioM2 == m.numberText(v.precioM2)
  {
    m.Edit(v);
    var notified;
    reqs, notified := m.Submit(saved, reload);
  }
}
