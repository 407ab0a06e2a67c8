/**
 * The quote calculator: text inputs, a selected glass type, a live price
 * preview derived from them, and the save action that posts a quote.
 *
 * Arithmetic is over `real`, an idealisation of JavaScript doubles; the
 * decimal parser (`parseFloat`) is an abstract function `parse` whose `None`
 * stands for NaN.
 */
module QuoteCalculator {
  import opened Api

  /** The three derived values of the live preview. */
  datatype Calc = Calc(m2: real, precioCosto: real, precioCliente: real)

  /** What the clipboard and WhatsApp exports are built from. */
  datatype ExportData = ExportData(alto: real, ancho: real, m2: real, precioCliente: real, glass: GlassType)

  const MissingDataMessage := "Faltan datos para calcular el presupuesto."

  /** Position of the first catalog entry carrying `id`, scanning from the front. */
  function FirstIndexOf(gs: seq<GlassType>, id: string): (r: Option<nat>)
    ensures r.None? <==> forall j :: 0 <= j < |gs| ==> gs[j].id != id
    ensures r.Some? ==> r.value < |gs| && gs[r.value].id == id
    ensures r.Some? ==> forall j :: 0 <= j < r.value ==> gs[j].id != id
  {
    if gs == [] then None
    else if gs[0].id == id then Some(0)
    else
      match FirstIndexOf(gs[1..], id)
      case None => None
      case Some(i) => Some(i + 1)
  }

  /** The selected glass: the first catalog entry whose id is `vidrioId`, if any. */
  function SelectedGlass(gs: seq<GlassType>, vidrioId: string): (r: Option<GlassType>)
    ensures r.None? <==> forall g :: g in gs ==> g.id != vidrioId
    ensures r.Some? ==> r.value.id == vidrioId
    ensures r.Some? ==> exists i :: 0 <= i < |gs| && gs[i] == r.value && forall j :: 0 <= j < i ==> gs[j].id != vidrioId
  {
    match FirstIndexOf(gs, vidrioId)
    case None => None
    case Some(i) => Some(gs[i])
  }

  /** The live preview: absent unless a glass is selected and all three inputs
      parse; otherwise area, cost and client price of the pane. */
  function CalcResult(alto: string, ancho: string, porcentajeGanancia: string,
                      selected: Option<GlassType>, parse: string -> Option<real>): (r: Option<Calc>)
    ensures r.None? <==> selected.None? || parse(alto).None? || parse(ancho).None? || parse(porcentajeGanancia).None?
    ensures r.Some? ==>
      var a, b, pg, price := parse(alto).value, parse(ancho).value, parse(porcentajeGanancia).value, selected.value.precioM2;
      && r.value.m2 == a * b
      && r.value.precioCosto == a * b * price
      && r.value.precioCliente == a * b * price * (1.0 + pg / 100.0)
  {
    var a, b, pg := parse(alto), parse(ancho), parse(porcentajeGanancia);
    if selected.None? || a.None? || b.None? || pg.None? then None
    else
      var m2 := a.value * b.value;
      var precioCosto := m2 * selected.value.precioM2;
      var precioCliente := precioCosto * (1.0 + pg.value / 100.0);
      Some(Calc(m2, precioCosto, precioCliente))
  }

  /** With no markup the client pays the cost price. */
  lemma ZeroMarkupIsCost(alto: string, ancho: string, porcentajeGanancia: string,
                         selected: Option<GlassType>, parse: string -> Option<real>)
    requires parse(porcentajeGanancia) == Some(0.0)
    requires CalcResult(alto, ancho, porcentajeGanancia, selected, parse).Some?
    ensures CalcResult(alto, ancho, porcentajeGanancia, selected, parse).value.precioCliente
         == CalcResult(alto, ancho, porcentajeGanancia, selected, parse).value.precioCosto
  {
  }

  /** A non-negative markup on a non-negative cost never lowers the price. */
  lemma MarkupNeverLowersPrice(alto: string, ancho: string, porcentajeGanancia: string,
                               selected: Option<GlassType>, parse: string -> Option<real>)
    requires CalcResult(alto, ancho, porcentajeGanancia, selected, parse).Some?
    requires parse(porcentajeGanancia).value >= 0.0
    requires CalcResult(alto, ancho, porcentajeGanancia, selected, parse).value.precioCosto >= 0.0
    ensures CalcResult(alto, ancho, porcentajeGanancia, selected, parse).value.precioCliente
         >= CalcResult(alto, ancho, porcentajeGanancia, selected, parse).value.precioCosto
  {
  }

  /** A 2.00 m by 1.50 m pane of glass at 100 per square meter with a 30% markup
      is 3 square meters, costs 300 and is priced at 390. */
  lemma PriceExample(alto: string, ancho: string, porcentajeGanancia: string,
                     g: GlassType, parse: string -> Option<real>)
    requires parse(alto) == Some(2.0) && parse(ancho) == Some(1.5)
    requires parse(porcentajeGanancia) == Some(30.0) && g.precioM2 == 100.0
    ensures CalcResult(alto, ancho, porcentajeGanancia, Some(g), parse) == Some(Calc(3.0, 300.0, 390.0))
  {
  }

  /** Once a glass type is gone from the catalog, the calculator has no
      selection and no preview, instead of failing. */
  lemma RemovedSelectionHasNoPreview(gs: seq<GlassType>, vidrioId: string, alto: string, ancho: string,
                                     porcentajeGanancia: string, parse: string -> Option<real>)
    requires forall g :: g in gs ==> g.id != vidrioId
    ensures SelectedGlass(gs, vidrioId) == None
    ensures CalcResult(alto, ancho, porcentajeGanancia, SelectedGlass(gs, vidrioId), parse) == None
  {
  }

  /** The second guard of the save action, which re-parses the three inputs,
      can never fire once the preview exists. */
  lemma SaveRecheckUnreachable(alto: string, ancho: string, porcentajeGanancia: string,
                               selected: Option<GlassType>, parse: string -> Option<real>)
    requires CalcResult(alto, ancho, porcentajeGanancia, selected, parse).Some?
    ensures parse(alto).Some? && parse(ancho).Some? && parse(porcentajeGanancia).Some?
  {
  }

  class Calculator {
    /** `parseFloat`, with `None` for NaN. */
    const parse: string -> Option<real>
    /** The catalog the shell passes down. */
    var glassTypes: seq<GlassType>
    var alto: string
    var ancho: string
    var vidrioId: string
    var porcentajeGanancia: string
    var nota: string
    var error: string
    var saving: bool

    /** Initial state, followed by the default-selection effect's first run. */
    constructor (parse: string -> Option<real>, glassTypes: seq<GlassType>)
      ensures this.parse == parse && this.glassTypes == glassTypes
      ensures alto == "" && ancho == "" && porcentajeGanancia == "30" && nota == ""
      ensures error == "" && !saving
      ensures vidrioId == if |glassTypes| > 0 then glassTypes[0].id else ""
    {
      this.parse := parse;
      this.glassTypes := glassTypes;
      alto, ancho, porcentajeGanancia, nota := "", "", "30", "";
      error, saving := "", false;
      vidrioId := "";
      if |glassTypes| > 0 {
        vidrioId := glassTypes[0].id;
      }
    }

    function Selected(): (g: Option<GlassType>)
      reads this
    {
      SelectedGlass(glassTypes, vidrioId)
    }

    function Preview(): (preview: Option<Calc>)
      reads this
    {
      CalcResult(alto, ancho, porcentajeGanancia, Selected(), parse)
    }

    /** A new catalog arrives; the default-selection effect picks its first
        entry only when nothing is selected yet, and never resets a stale id. */
    method ReceiveGlassTypes(list: seq<GlassType>)
      modifies this`glassTypes, this`vidrioId
      ensures glassTypes == list
      ensures |list| > 0 && old(vidrioId) == "" ==> vidrioId == list[0].id && Selected() == Some(list[0])
      ensures !(|list| > 0 && old(vidrioId) == "") ==> vidrioId == old(vidrioId)
    {
      glassTypes := list;
      if |glassTypes| > 0 && vidrioId == "" {
        vidrioId := glassTypes[0].id;
        assert FirstIndexOf(list, vidrioId) == Some(0);
      }
    }

    /** The guard shared by the copy and WhatsApp exports, and the values the
        exported text is built from. */
    function ExportSummary(): (r: Option<ExportData>)
      reads this
      ensures r.None? <==> Preview().None?
      ensures r.Some? ==> Selected() == Some(r.value.glass)
      ensures r.Some? ==> r.value.m2 == r.value.alto * r.value.ancho
      ensures r.Some? ==> Preview().value.precioCliente == r.value.precioCliente
      ensures r.Some? ==> parse(alto) == Some(r.value.alto) && parse(ancho) == Some(r.value.ancho)
    {
      var preview := Preview();
      var glass := Selected();
      if preview.None? || glass.None? then None
      else Some(ExportData(parse(alto).value, parse(ancho).value, preview.value.m2, preview.value.precioCliente, glass.value))
    }

    /** Save: without a preview it reports missing data and calls nothing;
        otherwise it posts the inputs and, on success, emits the backend's
        record (not the local calculation); on failure it shows the message. */
    method Save(created: Outcome<Budget>) returns (req: Option<Request>, emitted: Option<Budget>)
      modifies this`error, this`saving
      ensures Preview().None? ==> req == None && emitted == None
      ensures Preview().None? ==> error == MissingDataMessage && saving == old(saving)
      ensures Preview().Some? ==> !saving && req.Some? && req.value.verb == POST && req.value.path == BudgetsPath
      ensures Preview().Some? ==> req.value.body == BudgetBody(parse(alto).value, parse(ancho).value, Selected().value.id,
                                                               parse(porcentajeGanancia).value, nota)
      ensures Preview().Some? && created.Success? ==> emitted == Some(created.data) && error == ""
      ensures Preview().Some? && created.Failure? ==> emitted == None && error == created.message
    {
      error := "";
      var preview := Preview();
      var glass := Selected();
      if preview.None? || glass.None? {
        error := MissingDataMessage;
        return None, None;
      }
      var a, b, pg := parse(alto), parse(ancho), parse(porcentajeGanancia);
      if a.None? || b.None? || pg.None? {
        // "Alto, ancho y porcentaje de ganancia deben ser números." is never shown:
        // SaveRecheckUnreachable.
        assert false;
      }
      saving := true;
      req := Some(Request(POST, BudgetsPath, BudgetBody(a.value, b.value, glass.value.id, pg.value, nota)));
      match created {
        case Success(nuevo) =>
          emitted := Some(nuevo);
        case Failure(message) =>
          error := message;
          emitted := None;
      }
      saving := false;
    }
  }
}
