/**
  The HTTP handlers of the product API. A handler either answers with a
  status and a JSON body, or passes a store fault on to the error
  middleware (`next(error)`), modelled as `Err(fault)`.
 */
module ProdutosController {

  import opened Wrappers
  import opened JsValues
  import opened ProdutoValidator
  import opened AirtableService

  /** The JSON body of a response; `Vazio` is the empty body of a 204. */
  datatype Body =
    | ResultadoBody(resultado: Resultado)
    | ProdutoBody(produto: Produto)
    | ListaBody(produtos: seq<Produto>)
    | MensagemBody(mensagem: string)
    | Vazio

  datatype Response = Response(status: int, body: Body)

  const MsgNaoEncontrado := "Produto não encontrado."

  /** The 404 answer for an id with no product. */
  const NaoEncontrado := Response(404, MensagemBody(MsgNaoEncontrado))

  /** `req.body || {}`: an absent body reads as the empty object. */
  function Corpo(body: Option<JsObject>): (r: JsObject) {
    if body.Some? then body.value else map[]
  }

  /** `{ ...base, ...patch }` */
  function Combinar(base: JsObject, patch: JsObject): (r: JsObject) {
    base + patch
  }

  /** A property of the merge comes from the patch when the patch has it, else from the base. */
  lemma CombinarSpec(base: JsObject, patch: JsObject, k: string)
    ensures k in patch ==> Get(Combinar(base, patch), k) == patch[k]
    ensures k !in patch ==> Get(Combinar(base, patch), k) == Get(base, k)
  {}

  // ---------------------------------------------------------------------
  // Handlers
  // ---------------------------------------------------------------------

  /** `validarProdutoHandler`: the validation result, with 200 when valid and 400 otherwise. */
  method ValidarProdutoHandler(body: Option<JsObject>) returns (resp: Response)
    ensures resp.body == ResultadoBody(Verdict(Corpo(body)))
    ensures resp.status == 200 <==> Verdict(Corpo(body)).valido
    ensures resp.status == 400 <==> !Verdict(Corpo(body)).valido
  {
    var resultado := ValidarProduto(Corpo(body));
    var status := if resultado.valido then 200 else 400;
    resp := Response(status, ResultadoBody(resultado));
  }

  /**
    `criarProduto`: an invalid body is answered 400 and nothing is written;
    a valid one is stored and the new product returned with 201.
   */
  method CriarProdutoHandler(
    tabela: Tabela, body: Option<JsObject>, agora: string, novoId: string, criadoEm: string, falha: Option<Fault>)
    returns (out: Result<Response, Fault>)
    requires novoId !in tabela.registros
    modifies tabela
    ensures !Verdict(Corpo(body)).valido ==>
      out == Ok(Response(400, ResultadoBody(Verdict(Corpo(body))))) && tabela.registros == old(tabela.registros)
    ensures Verdict(Corpo(body)).valido && falha.Some? ==>
      out == Err(falha.value) && tabela.registros == old(tabela.registros)
    ensures Verdict(Corpo(body)).valido && falha.None? ==>
      var novo := Registro(novoId, Some(Campos(ComDataCriacao(Corpo(body), agora))), criadoEm);
      tabela.registros == old(tabela.registros)[novoId := novo] &&
      out == Ok(Response(201, ProdutoBody(MapearProduto(novo))))
  {
    var resultado := ValidarProduto(Corpo(body));
    if !resultado.valido {
      return Ok(Response(400, ResultadoBody(resultado)));
    }
    var criado := tabela.CriarProduto(Corpo(body), agora, novoId, criadoEm, falha);
    if criado.Err? {
      return Err(criado.error);
    }
    out := Ok(Response(201, ProdutoBody(criado.value)));
  }

  /** `listarProdutos`: every product with 200, or the store's fault. */
  function ListarProdutosHandler(tabela: Tabela, ordem: seq<string>, falha: Option<Fault>): (r: Result<Response, Fault>)
    reads tabela
  {
    match tabela.ListarProdutos(ordem, falha)
    case Ok(produtos) => Ok(Response(200, ListaBody(produtos)))
    case Err(e) => Err(e)
  }

  /** `buscarProdutoPorId`: the product with 200, 404 when there is none, or the store's fault. */
  function BuscarProdutoPorIdHandler(tabela: Tabela, id: string, falha: Option<Fault>): (r: Result<Response, Fault>)
    reads tabela
  {
    match tabela.BuscarProdutoPorId(id, falha)
    case Err(e) => Err(e)
    case Ok(None) => Ok(NaoEncontrado)
    case Ok(Some(p)) => Ok(Response(200, ProdutoBody(p)))
  }

  /**
    `atualizarProduto`: the body is merged over the stored product, the
    merge is validated, and only a valid merge is written back.
   */
  method AtualizarProdutoHandler(
    tabela: Tabela, id: string, body: Option<JsObject>, falhaBusca: Option<Fault>, falhaEscrita: Option<Fault>)
    returns (out: Result<Response, Fault>)
    modifies tabela
    ensures falhaBusca.Some? && falhaBusca.value.statusCode != Some(404) ==>
      out == Err(falhaBusca.value) && tabela.registros == old(tabela.registros)
    ensures (falhaBusca.Some? && falhaBusca.value.statusCode == Some(404)) ||
            (falhaBusca.None? && id !in old(tabela.registros)) ==>
      out == Ok(NaoEncontrado) && tabela.registros == old(tabela.registros)
    ensures falhaBusca.None? && id in old(tabela.registros) ==>
      var dados := Combinar(ToObject(MapearProduto(old(tabela.registros)[id])), Corpo(body));
      (!Verdict(dados).valido ==>
        out == Ok(Response(400, ResultadoBody(Verdict(dados)))) && tabela.registros == old(tabela.registros)) &&
      (Verdict(dados).valido && falhaEscrita.Some? ==>
        out == Err(falhaEscrita.value) && tabela.registros == old(tabela.registros)) &&
      (Verdict(dados).valido && falhaEscrita.None? ==>
        var novo := Registro(id, Some(FieldsOf(old(tabela.registros)[id]) + Campos(dados)), old(tabela.registros)[id].createdTime);
        tabela.registros == old(tabela.registros)[id := novo] &&
        out == Ok(Response(200, ProdutoBody(MapearProduto(novo)))))
  {
    var existente := tabela.BuscarProdutoPorId(id, falhaBusca);
    if existente.Err? {
      return Err(existente.error);
    }
    if existente.value.None? {
      return Ok(NaoEncontrado);
    }
    var dados := Combinar(ToObject(existente.value.value), Corpo(body));
    var resultado := ValidarProduto(dados);
    if !resultado.valido {
      return Ok(Response(400, ResultadoBody(resultado)));
    }
    var atualizado := tabela.AtualizarProduto(id, dados, falhaEscrita);
    if atualizado.Err? {
      return Err(atualizado.error);
    }
    out := Ok(Response(200, ProdutoBody(atualizado.value)));
  }

  /** `deletarProduto`: 404 for an unknown id; otherwise the record is removed and 204 sent. */
  method DeletarProdutoHandler(tabela: Tabela, id: string, falhaBusca: Option<Fault>, falhaEscrita: Option<Fault>)
    returns (out: Result<Response, Fault>)
    modifies tabela
    ensures falhaBusca.Some? && falhaBusca.value.statusCode != Some(404) ==>
      out == Err(falhaBusca.value) && tabela.registros == old(tabela.registros)
    ensures (falhaBusca.Some? && falhaBusca.value.statusCode == Some(404)) ||
            (falhaBusca.None? && id !in old(tabela.registros)) ==>
      out == Ok(NaoEncontrado) && tabela.registros == old(tabela.registros)
    ensures falhaBusca.None? && id in old(tabela.registros) && falhaEscrita.Some? ==>
      out == Err(falhaEscrita.value) && tabela.registros == old(tabela.registros)
    ensures falhaBusca.None? && id in old(tabela.registros) && falhaEscrita.None? ==>
      out == Ok(Response(204, Vazio)) && tabela.registros == old(tabela.registros) - {id}
  {
    var existente := tabela.BuscarProdutoPorId(id, falhaBusca);
    if existente.Err? {
      return Err(existente.error);
    }
    if existente.value.None? {
      return Ok(NaoEncontrado);
    }
    var erro := tabela.DeletarProduto(id, falhaEscrita);
    if erro.Some? {
      return Err(erro.value);
    }
    out := Ok(Response(204, Vazio));
  }

  // ---------------------------------------------------------------------
  // Properties
  // ---------------------------------------------------------------------

  /**
    A lookup answers 404 exactly when the id is unknown (or the store says
    404), 200 with the record's product otherwise, and passes on every
    other fault.
   */
  lemma BuscarHandlerSpec(t: Tabela, id: string, falha: Option<Fault>)
    ensures BuscarProdutoPorIdHandler(t, id, falha) == Ok(NaoEncontrado) <==>
      (falha.None? && id !in t.registros) || (falha.Some? && falha.value.statusCode == Some(404))
    ensures falha.None? && id in t.registros ==>
      BuscarProdutoPorIdHandler(t, id, falha) == Ok(Response(200, ProdutoBody(MapearProduto(t.registros[id])))) &&
      (t.Valid() ==> MapearProduto(t.registros[id]).id == id)
    ensures BuscarProdutoPorIdHandler(t, id, falha).Err? <==>
      falha.Some? && falha.value.statusCode != Some(404)
  {
    BuscarTriState(t, id, falha);
  }

  /**
    The list answers 200 with exactly one product per record of the table,
    in the store's order; a store fault is passed on.
   */
  lemma ListarHandlerSpec(t: Tabela, ordem: seq<string>)
    requires ListsEveryRecordOnce(t, ordem)
    ensures ListarProdutosHandler(t, ordem, None).Ok?
    ensures var resp := ListarProdutosHandler(t, ordem, None).value;
      resp.status == 200 && resp.body.ListaBody? && |resp.body.produtos| == |ordem| == |t.registros| &&
      (forall i :: 0 <= i < |ordem| ==> resp.body.produtos[i] == MapearProduto(t.registros[ordem[i]])) &&
      (forall id :: id in t.registros ==> MapearProduto(t.registros[id]) in resp.body.produtos)
    ensures forall f :: ListarProdutosHandler(t, ordem, Some(f)) == Err(f)
  {
    ListarEveryRecordOnce(t, ordem);
  }

  /** Once a product is deleted, looking it up answers 404. */
  lemma NotFoundAfterDelete(t: Tabela, id: string)
    requires id !in t.registros
    ensures BuscarProdutoPorIdHandler(t, id, None) == Ok(NaoEncontrado)
  {}

  /**
    A valid body creates a product that carries it: the title, category and
    price are the body's, the description is the body's or `''`, the stock
    is absent exactly when the body has none, and the date is the body's
    when given, else the current time.
   */
  lemma CreatedProductReflectsBody(dados: JsObject, agora: string, novoId: string, criadoEm: string)
    requires Verdict(dados).valido
    ensures var p := MapearProduto(Registro(novoId, Some(Campos(ComDataCriacao(dados, agora))), criadoEm));
      p.id == novoId &&
      p.titulo == Get(dados, "titulo") &&
      p.descricao == Or(Get(dados, "descricao"), Str("")) &&
      p.preco == ToNumber(Get(dados, "preco")) &&
      p.categoria == Get(dados, "categoria") &&
      (p.estoque.None? <==> Get(dados, "estoque") == Undefined) &&
      (p.estoque.Some? ==> p.estoque.value == ToNumber(Get(dados, "estoque"))) &&
      (Truthy(Get(dados, "dataCriacao")) ==> p.dataCriacao == Get(dados, "dataCriacao")) &&
      (!Truthy(Get(dados, "dataCriacao")) && agora != "" ==> p.dataCriacao == Str(agora))
  {
    CreatedFromBody(dados, agora, novoId, criadoEm);
    ValidBodyIsTruthy(dados);
  }

  /** What any body, valid or not, becomes once created and read back. */
  lemma CreatedFromBody(dados: JsObject, agora: string, novoId: string, criadoEm: string)
    ensures var p := MapearProduto(Registro(novoId, Some(Campos(ComDataCriacao(dados, agora))), criadoEm));
      p.id == novoId &&
      p.titulo == Or(Get(dados, "titulo"), Str("")) &&
      p.descricao == Or(Get(dados, "descricao"), Str("")) &&
      p.preco == NumberOrZero(Get(dados, "preco")) &&
      p.categoria == Or(Get(dados, "categoria"), Str("")) &&
      (p.estoque.None? <==> Get(dados, "estoque") == Undefined) &&
      (p.estoque.Some? ==> p.estoque.value == ToNumber(Get(dados, "estoque"))) &&
      (Truthy(Get(dados, "dataCriacao")) ==> p.dataCriacao == Get(dados, "dataCriacao")) &&
      (!Truthy(Get(dados, "dataCriacao")) && agora != "" ==> p.dataCriacao == Str(agora))
  {
    var d := ComDataCriacao(dados, agora);
    ReadBack(d, novoId, criadoEm);
    assert Get(d, "titulo") == Get(dados, "titulo");
    assert Get(d, "descricao") == Get(dados, "descricao");
    assert Get(d, "preco") == Get(dados, "preco");
    assert Get(d, "categoria") == Get(dados, "categoria");
    assert Get(d, "estoque") == Get(dados, "estoque");
    assert Get(d, "dataCriacao") == Or(Get(dados, "dataCriacao"), Str(agora));
  }

  /** A valid body has a truthy title and category and a positive price. */
  lemma ValidBodyIsTruthy(dados: JsObject)
    requires Verdict(dados).valido
    ensures Truthy(Get(dados, "titulo")) && Truthy(Get(dados, "categoria"))
    ensures ToNumber(Get(dados, "preco")) != NaN && !IsNonPositive(ToNumber(Get(dados, "preco")))
  {
    TitleErrors(dados);
    PriceErrors(dados);
    CategoryErrors(dados);
    TrimSpec(Get(dados, "titulo").s);
  }

  /**
    Creating `{titulo: "Maçã Fuji", preco: 3.5, categoria: "Fruta"}` yields a
    product with those values, an empty description, no stock and the
    current time as its date.
   */
  lemma CreateScenario(agora: string, novoId: string, criadoEm: string)
    requires agora != ""
    ensures var d := map["titulo" := Str("Maçã Fuji"), "preco" := Num(Fin(3.5)), "categoria" := Str("Fruta")];
      Verdict(d).valido &&
      MapearProduto(Registro(novoId, Some(Campos(ComDataCriacao(d, agora))), criadoEm)) ==
        Produto(novoId, Str("Maçã Fuji"), Str(""), Fin(3.5), Str("Fruta"), None, Str(agora))
  {
    MinimalValidCandidate();
    ScenarioProduct(map["titulo" := Str("Maçã Fuji"), "preco" := Num(Fin(3.5)), "categoria" := Str("Fruta")], agora, novoId, criadoEm);
  }

  /**
    The product created from a body with a title, a price and a category
    only. The body is a parameter fixed by the precondition, rather than a
    local of `CreateScenario`, so that this part is proved on its own and
    stays cheap.
   */
  lemma ScenarioProduct(d: JsObject, agora: string, novoId: string, criadoEm: string)
    requires agora != ""
    requires d == map["titulo" := Str("Maçã Fuji"), "preco" := Num(Fin(3.5)), "categoria" := Str("Fruta")]
    ensures MapearProduto(Registro(novoId, Some(Campos(ComDataCriacao(d, agora))), criadoEm)) ==
      Produto(novoId, Str("Maçã Fuji"), Str(""), Fin(3.5), Str("Fruta"), None, Str(agora))
  {
    CreatedFromBody(d, agora, novoId, criadoEm);
    assert Get(d, "titulo") == Str("Maçã Fuji") && Get(d, "categoria") == Str("Fruta");
    assert Get(d, "preco") == Num(Fin(3.5));
    assert Get(d, "descricao") == Undefined && Get(d, "estoque") == Undefined && Get(d, "dataCriacao") == Undefined;
  }

  /**
    An update whose body is empty writes the stored product back unchanged:
    reading the record again gives the same product.
   */
  lemma EmptyPatchKeepsProduct(r: Registro)
    ensures var p := MapearProduto(r);
      MapearProduto(Registro(r.id, Some(FieldsOf(r) + Campos(Combinar(ToObject(p), map[]))), r.createdTime)) == p
  {
    var p := MapearProduto(r);
    var o := ToObject(p);
    assert Combinar(o, map[]) == o;
    WriteBackAgrees(r, o);
  }

  /**
    Updating only the price of a product changes only its price: every
    other field reads back as before.
   */
  lemma PatchPrecoOnly(r: Registro, v: JsValue)
    requires ToNumber(v) != NaN && !IsNonPositive(ToNumber(v))
    ensures var p := MapearProduto(r);
      MapearProduto(Registro(r.id, Some(FieldsOf(r) + Campos(Combinar(ToObject(p), map["preco" := v]))), r.createdTime))
        == p.(preco := ToNumber(v))
  {
    var p := MapearProduto(r);
    var o := Combinar(ToObject(p), map["preco" := v]);
    assert o == ToObject(p)["preco" := v];
    WriteBackAgrees(r, o);
    var f := FieldsOf(r) + Campos(o);
    CamposPresence(o);
    assert Get(f, "Preco") == Num(ToNumber(v));
  }

  /**
    Writing the fields of `o` over a record, where `o` agrees with the
    record's product on every property except possibly the price, reads
    back as that product on every field but the price.
   */
  lemma WriteBackAgrees(r: Registro, o: JsObject)
    requires var p := MapearProduto(r);
      Get(o, "titulo") == p.titulo && Get(o, "descricao") == p.descricao &&
      Get(o, "categoria") == p.categoria && Get(o, "dataCriacao") == p.dataCriacao &&
      Get(o, "estoque") == (if p.estoque.Some? then Num(p.estoque.value) else Undefined)
    ensures var p := MapearProduto(r);
      var q := MapearProduto(Registro(r.id, Some(FieldsOf(r) + Campos(o)), r.createdTime));
      q.id == p.id && q.titulo == p.titulo && q.descricao == p.descricao && q.categoria == p.categoria &&
      q.estoque == p.estoque && q.dataCriacao == p.dataCriacao &&
      (Get(o, "preco") == Num(p.preco) ==> q.preco == p.preco)
  {
    var p := MapearProduto(r);
    var c := Campos(o);
    var f := FieldsOf(r) + c;
    CamposPresence(o);
    assert Get(f, "Titulo") == p.titulo;
    assert Get(f, "Descricao") == p.descricao;
    assert Get(f, "Categoria") == p.categoria;
    assert Get(f, "DataCriacao") == p.dataCriacao;
    if p.estoque.None? {
      assert Get(f, "Estoque") == Get(FieldsOf(r), "Estoque");
    } else {
      assert Get(f, "Estoque") == Num(p.estoque.value);
    }
    if Get(o, "preco") == Num(p.preco) {
      assert Get(f, "Preco") == Num(p.preco);
    }
  }
}
