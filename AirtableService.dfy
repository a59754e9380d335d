/**
  The product store and the field mapper between the API's camelCase
  product and the store's capitalised field names.

  The Airtable table is modelled as a map from record id to record; each
  store call takes, as a parameter, the failure the remote call may end in
  (`None` when it succeeds), and a failed call changes nothing. Record ids
  and creation timestamps, which the store assigns, and the current time
  are parameters too.
 */
module AirtableService {

  import opened Wrappers
  import opened JsValues

  /** The `fields` object of a stored record, keyed by the store's column names. */
  type Fields = JsObject

  /** A record as the store returns it: id, optional `fields`, and the `createdTime` metadata. */
  datatype Registro = Registro(id: string, fields: Option<Fields>, createdTime: string)

  /** The product the API returns. `estoque` is `None` where the object holds `undefined`. */
  datatype Produto = Produto(
    id: string,
    titulo: JsValue,
    descricao: JsValue,
    preco: JsNumber,
    categoria: JsValue,
    estoque: Option<JsNumber>,
    dataCriacao: JsValue)

  /** An error thrown by a store call; the SDK sets `statusCode` on HTTP failures. */
  datatype Fault = Fault(statusCode: Option<int>)

  const NotFound := Fault(Some(404))

  /** The product as a plain JavaScript object, as spread by `{ ...produto }`. */
  function ToObject(p: Produto): (r: JsObject) {
    map[
      "id" := Str(p.id),
      "titulo" := p.titulo,
      "descricao" := p.descricao,
      "preco" := Num(p.preco),
      "categoria" := p.categoria,
      "estoque" := if p.estoque.Some? then Num(p.estoque.value) else Undefined,
      "dataCriacao" := p.dataCriacao]
  }

  // ---------------------------------------------------------------------
  // Reading: mapearProduto
  // ---------------------------------------------------------------------

  /** `record.fields || {}` */
  function FieldsOf(r: Registro): (f: Fields) {
    if r.fields.Some? then r.fields.value else map[]
  }

  /** `Number(v) || 0` */
  function NumberOrZero(v: JsValue): (r: JsNumber) {
    if Truthy(Num(ToNumber(v))) then ToNumber(v) else Fin(0.0)
  }

  /** `mapearProduto`: store record to API product, with defaults for missing or falsy fields. */
  function MapearProduto(r: Registro): (p: Produto) {
    var f := FieldsOf(r);
    Produto(
      r.id,
      Or(Get(f, "Titulo"), Str("")),
      Or(Get(f, "Descricao"), Str("")),
      NumberOrZero(Get(f, "Preco")),
      Or(Get(f, "Categoria"), Str("")),
      if Get(f, "Estoque") != Undefined then Some(ToNumber(Get(f, "Estoque"))) else None,
      Or(Get(f, "DataCriacao"), Str(r.createdTime)))
  }

  /**
    Text fields keep a truthy stored value and otherwise become `''`; a
    record without `fields` reads like one with empty fields.
   */
  lemma MapearTextDefaults(r: Registro)
    ensures var p := MapearProduto(r);
      (Truthy(Get(FieldsOf(r), "Titulo")) ==> p.titulo == Get(FieldsOf(r), "Titulo")) &&
      (!Truthy(Get(FieldsOf(r), "Titulo")) ==> p.titulo == Str("")) &&
      (Truthy(Get(FieldsOf(r), "Descricao")) ==> p.descricao == Get(FieldsOf(r), "Descricao")) &&
      (!Truthy(Get(FieldsOf(r), "Descricao")) ==> p.descricao == Str("")) &&
      (Truthy(Get(FieldsOf(r), "Categoria")) ==> p.categoria == Get(FieldsOf(r), "Categoria")) &&
      (!Truthy(Get(FieldsOf(r), "Categoria")) ==> p.categoria == Str(""))
    ensures r.fields.None? ==> MapearProduto(r) == MapearProduto(Registro(r.id, Some(map[]), r.createdTime))
    ensures Truthy(MapearProduto(r).titulo) || MapearProduto(r).titulo == Str("")
  {}

  /**
    The price is never NaN: it is 0 when `Number(Preco)` is NaN or 0, and
    `Number(Preco)` otherwise.
   */
  lemma MapearPreco(r: Registro)
    ensures MapearProduto(r).preco != NaN
    ensures var n := ToNumber(Get(FieldsOf(r), "Preco"));
      MapearProduto(r).preco == (if n == NaN || n == Fin(0.0) then Fin(0.0) else n)
  {}

  /** `estoque` is absent exactly when `Estoque` is undefined, and `Number(Estoque)` otherwise. */
  lemma MapearEstoque(r: Registro)
    ensures MapearProduto(r).estoque.None? <==> Get(FieldsOf(r), "Estoque") == Undefined
    ensures MapearProduto(r).estoque.Some? ==> MapearProduto(r).estoque.value == ToNumber(Get(FieldsOf(r), "Estoque"))
  {}

  /** The id is copied; `dataCriacao` is `DataCriacao` when truthy, else the record's `createdTime`. */
  lemma MapearIdAndDate(r: Registro)
    ensures MapearProduto(r).id == r.id
    ensures Truthy(Get(FieldsOf(r), "DataCriacao")) ==> MapearProduto(r).dataCriacao == Get(FieldsOf(r), "DataCriacao")
    ensures !Truthy(Get(FieldsOf(r), "DataCriacao")) ==> MapearProduto(r).dataCriacao == Str(r.createdTime)
  {}

  // ---------------------------------------------------------------------
  // Writing: montarCampos
  // ---------------------------------------------------------------------

  /** The store columns `montarCampos` may write. */
  const StoreKeys: set<string> := {"Titulo", "Descricao", "Preco", "Categoria", "Estoque", "DataCriacao"}

  /** The position of a column in `montarCampos`; 6 for any other key. */
  function ColumnIndex(storeKey: string): (i: nat)
    ensures i <= 6
  {
    if storeKey == "Titulo" then 0
    else if storeKey == "Descricao" then 1
    else if storeKey == "Preco" then 2
    else if storeKey == "Categoria" then 3
    else if storeKey == "Estoque" then 4
    else if storeKey == "DataCriacao" then 5
    else 6
  }

  /** The column at a position of `montarCampos`. */
  function Column(i: nat): (k: string)
    ensures i < 6 ==> ColumnIndex(k) == i
  {
    if i == 0 then "Titulo"
    else if i == 1 then "Descricao"
    else if i == 2 then "Preco"
    else if i == 3 then "Categoria"
    else if i == 4 then "Estoque"
    else "DataCriacao"
  }

  /** The API property each store column is written from. */
  function ApiKey(storeKey: string): (r: string) {
    if storeKey == "Titulo" then "titulo"
    else if storeKey == "Descricao" then "descricao"
    else if storeKey == "Preco" then "preco"
    else if storeKey == "Categoria" then "categoria"
    else if storeKey == "Estoque" then "estoque"
    else "dataCriacao"
  }

  /** The value written to a column: numbers go through `Number`, everything else verbatim. */
  function Converted(storeKey: string, v: JsValue): (r: JsValue) {
    if storeKey == "Preco" || storeKey == "Estoque" then Num(ToNumber(v)) else v
  }

  /**
    The fields `montarCampos(dados)` builds: one column for each of the six
    API properties that is not `undefined`, and nothing else.
   */
  function Campos(dados: JsObject): (r: Fields) {
    map k | k in StoreKeys && Get(dados, ApiKey(k)) != Undefined :: Converted(k, Get(dados, ApiKey(k)))
  }

  /** The fields after the first `n` assignments of `montarCampos`. */
  function CamposUpTo(dados: JsObject, n: nat): (r: Fields) {
    if n == 0 then map[]
    else
      var m := CamposUpTo(dados, n - 1);
      var k := Column(n - 1);
      if Get(dados, ApiKey(k)) != Undefined then m[k := Converted(k, Get(dados, ApiKey(k)))] else m
  }

  /** The first `n` assignments write exactly the defined columns among the first `n`. */
  lemma {:induction false} CamposUpToSpec(dados: JsObject, n: nat)
    requires n <= 6
    ensures forall k :: k in CamposUpTo(dados, n) <==> ColumnIndex(k) < n && Get(dados, ApiKey(k)) != Undefined
    ensures forall k :: k in CamposUpTo(dados, n) ==> CamposUpTo(dados, n)[k] == Converted(k, Get(dados, ApiKey(k)))
  {
    if n > 0 {
      CamposUpToSpec(dados, n - 1);
      var c := Column(n - 1);
      forall k ensures k == c <==> ColumnIndex(k) == n - 1 {
        if ColumnIndex(k) == n - 1 {
          assert k == Column(ColumnIndex(k));
        }
      }
    }
  }

  lemma StoreKeysByIndex(k: string)
    ensures k in StoreKeys <==> ColumnIndex(k) < 6
  {}

  /** All six assignments build `Campos(dados)`. */
  lemma CamposComplete(dados: JsObject)
    ensures CamposUpTo(dados, 6) == Campos(dados)
  {
    CamposKeysAgree(dados);
    CamposValuesAgree(dados);
  }

  lemma CamposKeysAgree(dados: JsObject)
    ensures forall k :: k in CamposUpTo(dados, 6) <==> k in Campos(dados)
  {
    CamposUpToSpec(dados, 6);
    forall k
      ensures k in CamposUpTo(dados, 6) <==> k in Campos(dados)
    {
      StoreKeysByIndex(k);
    }
  }

  lemma CamposValuesAgree(dados: JsObject)
    ensures forall k :: k in CamposUpTo(dados, 6) && k in Campos(dados) ==> CamposUpTo(dados, 6)[k] == Campos(dados)[k]
  {
    CamposUpToSpec(dados, 6);
  }

  /** `montarCampos`: fills `campos` by one conditional assignment per property. */
  method MontarCampos(dados: JsObject) returns (campos: Fields)
    ensures campos == Campos(dados)
  {
    campos := map[];
    if Get(dados, "titulo") != Undefined {
      campos := campos["Titulo" := Get(dados, "titulo")];
    }
    assert campos == CamposUpTo(dados, 1);
    if Get(dados, "descricao") != Undefined {
      campos := campos["Descricao" := Get(dados, "descricao")];
    }
    assert campos == CamposUpTo(dados, 2);
    if Get(dados, "preco") != Undefined {
      campos := campos["Preco" := Num(ToNumber(Get(dados, "preco")))];
    }
    assert campos == CamposUpTo(dados, 3);
    if Get(dados, "categoria") != Undefined {
      campos := campos["Categoria" := Get(dados, "categoria")];
    }
    assert campos == CamposUpTo(dados, 4);
    if Get(dados, "estoque") != Undefined {
      campos := campos["Estoque" := Num(ToNumber(Get(dados, "estoque")))];
    }
    assert campos == CamposUpTo(dados, 5);
    if Get(dados, "dataCriacao") != Undefined {
      campos := campos["DataCriacao" := Get(dados, "dataCriacao")];
    }
    assert campos == CamposUpTo(dados, 6);
    CamposComplete(dados);
  }

  /**
    A column is written exactly when its property is not `undefined`; text
    properties are copied unchanged and the two numeric ones converted.
   */
  lemma CamposPresence(dados: JsObject)
    ensures "Titulo" in Campos(dados) <==> Get(dados, "titulo") != Undefined
    ensures "Descricao" in Campos(dados) <==> Get(dados, "descricao") != Undefined
    ensures "Preco" in Campos(dados) <==> Get(dados, "preco") != Undefined
    ensures "Categoria" in Campos(dados) <==> Get(dados, "categoria") != Undefined
    ensures "Estoque" in Campos(dados) <==> Get(dados, "estoque") != Undefined
    ensures "DataCriacao" in Campos(dados) <==> Get(dados, "dataCriacao") != Undefined
    ensures "Titulo" in Campos(dados) ==> Campos(dados)["Titulo"] == Get(dados, "titulo")
    ensures "Descricao" in Campos(dados) ==> Campos(dados)["Descricao"] == Get(dados, "descricao")
    ensures "Preco" in Campos(dados) ==> Campos(dados)["Preco"] == Num(ToNumber(Get(dados, "preco")))
    ensures "Categoria" in Campos(dados) ==> Campos(dados)["Categoria"] == Get(dados, "categoria")
    ensures "Estoque" in Campos(dados) ==> Campos(dados)["Estoque"] == Num(ToNumber(Get(dados, "estoque")))
    ensures "DataCriacao" in Campos(dados) ==> Campos(dados)["DataCriacao"] == Get(dados, "dataCriacao")
  {}

  /**
    Fields built from an object and read back: each property that is
    missing or falsy gets its default, the price is `Number(preco) || 0`,
    and the date falls back to the record's `createdTime`.
   */
  lemma ReadBack(dados: JsObject, id: string, createdTime: string)
    ensures var p := MapearProduto(Registro(id, Some(Campos(dados)), createdTime));
      p.id == id &&
      p.titulo == Or(Get(dados, "titulo"), Str("")) &&
      p.descricao == Or(Get(dados, "descricao"), Str("")) &&
      p.preco == NumberOrZero(Get(dados, "preco")) &&
      p.categoria == Or(Get(dados, "categoria"), Str("")) &&
      (p.estoque.None? <==> Get(dados, "estoque") == Undefined) &&
      (p.estoque.Some? ==> p.estoque.value == ToNumber(Get(dados, "estoque"))) &&
      p.dataCriacao == Or(Get(dados, "dataCriacao"), Str(createdTime))
  {
    CamposPresence(dados);
    assert ToNumber(Get(dados, "preco")) == ToNumber(Num(ToNumber(Get(dados, "preco"))));
  }

  /** No other key is ever written, and other API properties (`id` among them) are ignored. */
  lemma CamposIgnoresOtherKeys(dados: JsObject, k: string, v: JsValue)
    requires k !in {"titulo", "descricao", "preco", "categoria", "estoque", "dataCriacao"}
    ensures Campos(dados[k := v]) == Campos(dados)
    ensures forall c :: c in Campos(dados) ==> c in StoreKeys
  {
    forall c | c in StoreKeys
      ensures Get(dados[k := v], ApiKey(c)) == Get(dados, ApiKey(c))
    {
      assert ApiKey(c) != k;
    }
  }

  /** `{ ...dados, dataCriacao: dados.dataCriacao || agora }` */
  function ComDataCriacao(dados: JsObject, agora: string): (r: JsObject) {
    dados["dataCriacao" := Or(Get(dados, "dataCriacao"), Str(agora))]
  }

  /** On create, a truthy client `dataCriacao` is written as is; otherwise the current time is. */
  lemma CreateTimestamp(dados: JsObject, agora: string)
    ensures "DataCriacao" in Campos(ComDataCriacao(dados, agora))
    ensures Truthy(Get(dados, "dataCriacao")) ==>
      Campos(ComDataCriacao(dados, agora))["DataCriacao"] == Get(dados, "dataCriacao")
    ensures !Truthy(Get(dados, "dataCriacao")) ==>
      Campos(ComDataCriacao(dados, agora))["DataCriacao"] == Str(agora)
  {
    var d := ComDataCriacao(dados, agora);
    assert Get(d, "dataCriacao") == Or(Get(dados, "dataCriacao"), Str(agora));
    assert ApiKey("DataCriacao") == "dataCriacao";
  }

  /**
    Round trip: the fields written back from a mapped product, read again
    with the same id and `createdTime`, give the same product.
   */
  lemma RoundTrip(r: Registro)
    ensures var p := MapearProduto(r);
      MapearProduto(Registro(r.id, Some(Campos(ToObject(p))), r.createdTime)) == p
  {
    var p := MapearProduto(r);
    var o := ToObject(p);
    var c := Campos(o);
    CamposPresence(o);
    assert Get(o, "titulo") == p.titulo && Get(o, "descricao") == p.descricao;
    assert Get(o, "preco") == Num(p.preco) && Get(o, "categoria") == p.categoria;
    assert Get(o, "dataCriacao") == p.dataCriacao;
    assert Get(o, "estoque") == if p.estoque.Some? then Num(p.estoque.value) else Undefined;
    var q := MapearProduto(Registro(r.id, Some(c), r.createdTime));
    assert q.titulo == p.titulo;
    assert q.descricao == p.descricao;
    assert q.categoria == p.categoria;
    assert q.preco == p.preco;
    assert q.estoque == p.estoque;
    assert q.dataCriacao == p.dataCriacao;
  }

  // ---------------------------------------------------------------------
  // The table
  // ---------------------------------------------------------------------

  /** The product table: record id to record. */
  class Tabela {
    var registros: map<string, Registro>

    /** Every record is filed under its own id and has its fields. */
    ghost predicate Valid()
      reads this
    {
      forall id :: id in registros ==> registros[id].id == id && registros[id].fields.Some?
    }

    constructor (registros: map<string, Registro>)
      requires forall id :: id in registros ==> registros[id].id == id && registros[id].fields.Some?
      ensures this.registros == registros
      ensures Valid()
    {
      this.registros := registros;
    }

    /** `tabelaProdutos.find(id)`: the record, or a 404 fault when there is none. */
    function Find(id: string, falha: Option<Fault>): (r: Result<Registro, Fault>)
      reads this
    {
      if falha.Some? then Err(falha.value)
      else if id in registros then Ok(registros[id])
      else Err(NotFound)
    }

    /** `buscarProdutoPorId`: a 404 fault becomes "no product"; every other fault propagates. */
    function BuscarProdutoPorId(id: string, falha: Option<Fault>): (r: Result<Option<Produto>, Fault>)
      reads this
    {
      match Find(id, falha)
      case Ok(r) => Ok(Some(MapearProduto(r)))
      case Err(e) => if e.statusCode == Some(404) then Ok(None) else Err(e)
    }

    /**
      `listarProdutos`: the products in the order the store returns their
      ids (`ordem`; the store sorts by `DataCriacao`, newest first).
     */
    function ListarProdutos(ordem: seq<string>, falha: Option<Fault>): (r: Result<seq<Produto>, Fault>)
      reads this
    {
      if falha.Some? then Err(falha.value) else Ok(Produtos(ordem))
    }

    /** The mapped products for the ids of `ordem` that are in the table, in that order. */
    function Produtos(ordem: seq<string>): (r: seq<Produto>)
      reads this
    {
      if ordem == [] then []
      else
        var rest := Produtos(ordem[1..]);
        if ordem[0] in registros then [MapearProduto(registros[ordem[0]])] + rest else rest
    }

    /** `criarProduto`: writes the fields built from the body, stamped with `agora` when it has no date. */
    method CriarProduto(dados: JsObject, agora: string, novoId: string, criadoEm: string, falha: Option<Fault>)
      returns (r: Result<Produto, Fault>)
      requires novoId !in registros
      modifies this
      ensures falha.Some? ==> r == Err(falha.value) && registros == old(registros)
      ensures falha.None? ==>
        var novo := Registro(novoId, Some(Campos(ComDataCriacao(dados, agora))), criadoEm);
        registros == old(registros)[novoId := novo] && r == Ok(MapearProduto(novo))
      ensures old(Valid()) ==> Valid()
    {
      var campos := MontarCampos(ComDataCriacao(dados, agora));
      if falha.Some? {
        return Err(falha.value);
      }
      var novo := Registro(novoId, Some(campos), criadoEm);
      registros := registros[novoId := novo];
      r := Ok(MapearProduto(novo));
    }

    /**
      `atualizarProduto`: merges the fields built from `dados` into the
      record's fields (columns not written keep their values).
     */
    method AtualizarProduto(id: string, dados: JsObject, falha: Option<Fault>) returns (r: Result<Produto, Fault>)
      modifies this
      ensures falha.None? && id in old(registros) ==>
        var novo := Registro(id, Some(FieldsOf(old(registros)[id]) + Campos(dados)), old(registros)[id].createdTime);
        registros == old(registros)[id := novo] && r == Ok(MapearProduto(novo))
      ensures falha.Some? ==> r == Err(falha.value) && registros == old(registros)
      ensures falha.None? && id !in old(registros) ==> r == Err(NotFound) && registros == old(registros)
      ensures old(Valid()) ==> Valid()
    {
      var campos := MontarCampos(dados);
      if falha.Some? {
        return Err(falha.value);
      }
      if id !in registros {
        return Err(NotFound);
      }
      var atual := registros[id];
      var novo := Registro(id, Some(FieldsOf(atual) + campos), atual.createdTime);
      registros := registros[id := novo];
      r := Ok(MapearProduto(novo));
    }

    /** `deletarProduto`: removes the record; an unknown id is a 404 fault. */
    method DeletarProduto(id: string, falha: Option<Fault>) returns (erro: Option<Fault>)
      modifies this
      ensures falha.Some? ==> erro == falha && registros == old(registros)
      ensures falha.None? && id !in old(registros) ==> erro == Some(NotFound) && registros == old(registros)
      ensures falha.None? && id in old(registros) ==> erro == None && registros == old(registros) - {id}
      ensures old(Valid()) ==> Valid()
    {
      if falha.Some? {
        return falha;
      }
      if id !in registros {
        return Some(NotFound);
      }
      registros := registros - {id};
      erro := None;
    }
  }

  /**
    The lookup is tri-state: a product (the mapped record, carrying the
    requested id), "no product" exactly on a 404, or the fault itself.
   */
  lemma BuscarTriState(t: Tabela, id: string, falha: Option<Fault>)
    ensures t.BuscarProdutoPorId(id, falha) == Ok(None) <==>
      (falha.None? && id !in t.registros) || (falha.Some? && falha.value.statusCode == Some(404))
    ensures t.BuscarProdutoPorId(id, falha).Ok? && t.BuscarProdutoPorId(id, falha).value.Some? ==>
      falha.None? && id in t.registros &&
      t.BuscarProdutoPorId(id, falha).value.value == MapearProduto(t.registros[id]) &&
      (t.Valid() ==> t.BuscarProdutoPorId(id, falha).value.value.id == id)
    ensures t.BuscarProdutoPorId(id, falha).Err? ==>
      falha.Some? && t.BuscarProdutoPorId(id, falha).error == falha.value && falha.value.statusCode != Some(404)
  {}

  /** The mapped products follow `ordem` position by position when every id in it is a record's. */
  lemma {:induction false} ProdutosAt(t: Tabela, ordem: seq<string>)
    requires forall i :: 0 <= i < |ordem| ==> ordem[i] in t.registros
    ensures |t.Produtos(ordem)| == |ordem|
    ensures forall i :: 0 <= i < |ordem| ==> t.Produtos(ordem)[i] == MapearProduto(t.registros[ordem[i]])
  {
    if ordem != [] {
      ProdutosAt(t, ordem[1..]);
    }
  }

  /** `ordem` lists every record of the table exactly once, as `select(...).all()` returns them. */
  ghost predicate ListsEveryRecordOnce(t: Tabela, ordem: seq<string>)
    reads t
  {
    (forall id :: id in t.registros <==> id in ordem) &&
    (forall i, j :: 0 <= i < j < |ordem| ==> ordem[i] != ordem[j])
  }

  /** A sequence without repeats has as many distinct elements as positions. */
  lemma {:induction false} DistinctCard(ordem: seq<string>)
    requires forall i, j :: 0 <= i < j < |ordem| ==> ordem[i] != ordem[j]
    ensures |set x | x in ordem| == |ordem|
  {
    if ordem != [] {
      var rest := ordem[1..];
      DistinctCard(rest);
      forall k | 0 <= k < |rest|
        ensures rest[k] != ordem[0]
      {
        assert rest[k] == ordem[k + 1];
      }
      assert (set x | x in ordem) == {ordem[0]} + (set x | x in rest);
    }
  }

  /**
    With the store's order listing every record once, the list holds
    exactly one mapped product per record of the table, in that order, and
    (in a well-formed table) no two listed products share an id.
   */
  lemma ListarEveryRecordOnce(t: Tabela, ordem: seq<string>)
    requires ListsEveryRecordOnce(t, ordem)
    ensures |t.Produtos(ordem)| == |ordem| == |t.registros|
    ensures forall i :: 0 <= i < |ordem| ==> t.Produtos(ordem)[i] == MapearProduto(t.registros[ordem[i]])
    ensures forall id :: id in t.registros ==> MapearProduto(t.registros[id]) in t.Produtos(ordem)
    ensures t.Valid() ==>
      forall i, j :: 0 <= i < j < |t.Produtos(ordem)| ==> t.Produtos(ordem)[i].id != t.Produtos(ordem)[j].id
  {
    ProdutosAt(t, ordem);
    DistinctCard(ordem);
    assert t.registros.Keys == set x | x in ordem;
    forall id | id in t.registros
      ensures MapearProduto(t.registros[id]) in t.Produtos(ordem)
    {
      var i :| 0 <= i < |ordem| && ordem[i] == id;
      assert t.Produtos(ordem)[i] == MapearProduto(t.registros[id]);
    }
    if t.Valid() {
      forall i, j | 0 <= i < j < |t.Produtos(ordem)|
        ensures t.Produtos(ordem)[i].id != t.Produtos(ordem)[j].id
      {
        assert t.Produtos(ordem)[i].id == ordem[i];
        assert t.Produtos(ordem)[j].id == ordem[j];
      }
    }
  }
}
