/**
 * Printer routing on the server (`utils/printer_manager.py`): the
 * first-match lookup of a configured printer by profile and ticket type,
 * the full profile × type map, and the driver-name update.
 */
module PrinterManager {
  import opened Wrappers

  /**
   * A row of `printers`. `perfil` and `tipo` are JSON text in the table;
   * here they are the already-decoded lists, or None when decoding fails.
   */
  datatype PrinterRecord = PrinterRecord(
    id: int,
    nombre: string,
    driverName: string,
    perfil: Option<seq<string>>,
    tipo: Option<seq<string>>,
    estado: int)

  /**
   * The printers query: None when the query itself raises, otherwise the
   * rows of the table in query order.
   */
  type Query = Option<seq<PrinterRecord>>

  /** The profile and ticket-type names the application knows. */
  const PERFILES: seq<string> := ["general", "delivery", "mostrador", "cocina"]
  const TIPOS: seq<string> := ["ticket", "comanda", "factura", "cocina"]

  /**
   * Whether printer `p` serves (`perfil`, `tipo`): it is active, both of its
   * lists decode, `perfil` is in its profile list and `tipo` (when given) is
   * in its type list.
   */
  predicate Matches(p: PrinterRecord, perfil: string, tipo: Option<string>) {
    && p.estado == 1
    && p.perfil.Some? && p.tipo.Some?
    && perfil in p.perfil.value
    && (tipo.None? || tipo.value in p.tipo.value)
  }

  /** Position of the first printer that matches, or `|ps|` when none does. */
  function FirstMatch(ps: seq<PrinterRecord>, perfil: string, tipo: Option<string>): (i: nat)
    ensures i <= |ps|
    ensures i < |ps| ==> Matches(ps[i], perfil, tipo)
    ensures forall j :: 0 <= j < i ==> !Matches(ps[j], perfil, tipo)
    decreases |ps|
  {
    if ps == [] then 0
    else if Matches(ps[0], perfil, tipo) then 0
    else 1 + FirstMatch(ps[1..], perfil, tipo)
  }

  /**
   * `obtener_por_perfil`: the first active printer, in query order, whose
   * decoded profile list contains `perfil` and whose type list contains
   * `tipo` (any type when `tipo` is None). Printers whose lists do not
   * decode are skipped; no match, or a failing query, gives None.
   */
  function ObtenerPorPerfil(q: Query, perfil: string, tipo: Option<string>): (r: Option<PrinterRecord>)
    ensures q.None? ==> r.None?
    ensures r.Some? ==> r.value in q.value && Matches(r.value, perfil, tipo)
    ensures q.Some? && r.None? ==> forall p :: p in q.value ==> !Matches(p, perfil, tipo)
  {
    match q
    case None => None
    case Some(ps) =>
      var i := FirstMatch(ps, perfil, tipo);
      if i < |ps| then Some(ps[i]) else None
  }

  /** The result is the first match: every printer before it in the query fails to match. */
  lemma ObtenerPorPerfilIsFirst(ps: seq<PrinterRecord>, perfil: string, tipo: Option<string>)
    requires ObtenerPorPerfil(Some(ps), perfil, tipo).Some?
    ensures exists i :: (0 <= i < |ps| && ps[i] == ObtenerPorPerfil(Some(ps), perfil, tipo).value
                         && forall j :: 0 <= j < i ==> !Matches(ps[j], perfil, tipo))
  {
    var i := FirstMatch(ps, perfil, tipo);
    assert ps[i] == ObtenerPorPerfil(Some(ps), perfil, tipo).value;
  }

  /** Only printers with estado 1 are ever returned; inactive rows are invisible to the lookup. */
  lemma InactiveIgnored(ps: seq<PrinterRecord>, p: PrinterRecord, perfil: string, tipo: Option<string>)
    requires p.estado != 1
    ensures ObtenerPorPerfil(Some([p] + ps), perfil, tipo) == ObtenerPorPerfil(Some(ps), perfil, tipo)
  {
    assert ([p] + ps)[1..] == ps;
  }

  /** A printer whose lists do not decode is skipped and the scan goes on with the rest. */
  lemma UndecodableSkipped(ps: seq<PrinterRecord>, p: PrinterRecord, perfil: string, tipo: Option<string>)
    requires p.perfil.None? || p.tipo.None?
    ensures ObtenerPorPerfil(Some([p] + ps), perfil, tipo) == ObtenerPorPerfil(Some(ps), perfil, tipo)
  {
    assert ([p] + ps)[1..] == ps;
  }

  /** Asking with no type finds a printer whenever asking with some type does. */
  lemma AnyTipoWeaker(q: Query, perfil: string, tipo: string)
    requires ObtenerPorPerfil(q, perfil, Some(tipo)).Some?
    ensures ObtenerPorPerfil(q, perfil, None).Some?
  {
    var p := ObtenerPorPerfil(q, perfil, Some(tipo)).value;
    assert Matches(p, perfil, None);
  }

  /**
   * A row as saved by the printers screen: each decodable list holds at
   * least one profile or type.
   */
  predicate Configured(p: PrinterRecord) {
    && (p.perfil.Some? ==> |p.perfil.value| > 0)
    && (p.tipo.Some? ==> |p.tipo.value| > 0)
  }

  class PrinterTable {
    var rows: seq<PrinterRecord>

    ghost predicate Valid()
      reads this
    {
      && (forall i, j :: 0 <= i < j < |rows| ==> rows[i].id != rows[j].id)
      && (forall i :: 0 <= i < |rows| ==> Configured(rows[i]))
    }

    constructor (rs: seq<PrinterRecord>)
      requires forall i, j :: 0 <= i < j < |rs| ==> rs[i].id != rs[j].id
      requires forall i :: 0 <= i < |rs| ==> Configured(rs[i])
      ensures Valid() && rows == rs
    {
      rows := rs;
    }

    /** Whether a printer with id `id` exists. */
    predicate HasId(id: int)
      reads this
    {
      exists i :: 0 <= i < |rows| && rows[i].id == id
    }

    /**
     * `guardar_driver`: False for an unknown id; otherwise stores the new
     * driver name on that printer, changes nothing else and returns True.
     */
    method GuardarDriver(id: int, driverName: string) returns (ok: bool)
      requires Valid()
      modifies this
      ensures Valid()
      ensures ok <==> old(HasId(id))
      ensures |rows| == |old(rows)|
      ensures forall i :: 0 <= i < |rows| ==>
        rows[i] == if old(rows[i]).id == id then old(rows[i]).(driverName := driverName) else old(rows[i])
    {
      var i := 0;
      while i < |rows|
        invariant 0 <= i <= |rows|
        invariant forall j :: 0 <= j < i ==> rows[j].id != id
      {
        if rows[i].id == id {
          rows := rows[i := rows[i].(driverName := driverName)];
          return true;
        }
        i := i + 1;
      }
      return false;
    }
  }

  /**
   * `mapear_perfiles`: a map with exactly the keys of `PERFILES`, each holding
   * a map with exactly the keys of `TIPOS`, whose value for (perfil, tipo)
   * is the lookup for that pair.
   */
  method MapearPerfiles(q: Query) returns (result: map<string, map<string, Option<PrinterRecord>>>)
    ensures result.Keys == set p | p in PERFILES
    ensures forall p :: p in result ==> result[p].Keys == set t | t in TIPOS
    ensures forall p, t :: p in result && t in result[p] ==> result[p][t] == ObtenerPorPerfil(q, p, Some(t))
  {
    result := map[];
    var i := 0;
    while i < |PERFILES|
      invariant 0 <= i <= |PERFILES|
      invariant result.Keys == set p | p in PERFILES[..i]
      invariant forall p :: p in result ==> result[p].Keys == set t | t in TIPOS
      invariant forall p, t :: p in result && t in result[p] ==> result[p][t] == ObtenerPorPerfil(q, p, Some(t))
    {
      var perfil := PERFILES[i];
      var fila: map<string, Option<PrinterRecord>> := map[];
      var j := 0;
      while j < |TIPOS|
        invariant 0 <= j <= |TIPOS|
        invariant fila.Keys == set t | t in TIPOS[..j]
        invariant forall t :: t in fila ==> fila[t] == ObtenerPorPerfil(q, perfil, Some(t))
      {
        fila := fila[TIPOS[j] := ObtenerPorPerfil(q, perfil, Some(TIPOS[j]))];
        assert TIPOS[..j + 1] == TIPOS[..j] + [TIPOS[j]];
        j := j + 1;
      }
      assert TIPOS[..j] == TIPOS;
      result := result[perfil := fila];
      assert PERFILES[..i + 1] == PERFILES[..i] + [PERFILES[i]];
      i := i + 1;
    }
    assert PERFILES[..i] == PERFILES;
  }
}
