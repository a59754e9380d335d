/**
  Validation of a candidate product (`validarProduto`). Five fields are
  checked independently of one another; every rule that fires adds its
  message, in the fixed order title, description, price, category, stock,
  and the candidate is valid exactly when no rule fired.
 */
module ProdutoValidator {

  import opened JsValues

  /** `categoriasPermitidas` */
  const CategoriasPermitidas: seq<string> := ["Fruta", "Legume", "Verdura"]

  const MsgTitulo := "O título deve ter pelo menos 5 caracteres."
  const MsgDescricao := "A descrição deve ser um texto."
  const MsgPrecoNumero := "O preço deve ser um número."
  const MsgPrecoPositivo := "O preço deve ser maior que zero."
  const MsgCategoria := "A categoria deve ser Fruta, Legume ou Verdura."
  const MsgEstoque := "O estoque deve ser um número maior ou igual a zero."

  /** The object `validarProduto` returns: `{ valido, erros }`. */
  datatype Resultado = Resultado(valido: bool, erros: seq<string>)

  /**
    One check of the validator. The price has two rules, of which at most
    one can fire: "not a number" and "not greater than zero".
   */
  datatype Rule = TitleRule | DescriptionRule | PriceNaNRule | PriceNotPositiveRule | CategoryRule | StockRule

  /** Position of a rule in the order the validator evaluates them. */
  function Rank(r: Rule): (res: nat) {
    match r
    case TitleRule => 0
    case DescriptionRule => 1
    case PriceNaNRule => 2
    case PriceNotPositiveRule => 3
    case CategoryRule => 4
    case StockRule => 5
  }

  /** The rule at position `i` of the evaluation order (the last one past the end). */
  function RuleAt(i: nat): (r: Rule)
    ensures i < 6 ==> Rank(r) == i
  {
    if i == 0 then TitleRule
    else if i == 1 then DescriptionRule
    else if i == 2 then PriceNaNRule
    else if i == 3 then PriceNotPositiveRule
    else if i == 4 then CategoryRule
    else StockRule
  }

  /** The candidate property a rule reads; no rule reads any other. */
  function FieldOf(r: Rule): (res: string) {
    match r
    case TitleRule => "titulo"
    case DescriptionRule => "descricao"
    case PriceNaNRule => "preco"
    case PriceNotPositiveRule => "preco"
    case CategoryRule => "categoria"
    case StockRule => "estoque"
  }

  function Message(r: Rule): (res: string) {
    match r
    case TitleRule => MsgTitulo
    case DescriptionRule => MsgDescricao
    case PriceNaNRule => MsgPrecoNumero
    case PriceNotPositiveRule => MsgPrecoPositivo
    case CategoryRule => MsgCategoria
    case StockRule => MsgEstoque
  }

  /** The title as the validator sees it: trimmed when it is a string, `''` otherwise. */
  function TrimmedTitle(v: JsValue): (r: string) {
    if v.Str? then Trim(v.s) else ""
  }

  /** `categoriasPermitidas.includes(v)`: strict, case-sensitive, untrimmed membership. */
  predicate IsAllowedCategory(v: JsValue) {
    v.Str? && v.s in CategoriasPermitidas
  }

  /** Whether rule `r` rejects the value `v` of its own field. */
  predicate FiresOn(r: Rule, v: JsValue) {
    match r
    case TitleRule => TrimmedTitle(v) == "" || |TrimmedTitle(v)| < 5
    case DescriptionRule => Truthy(v) && !v.Str?
    case PriceNaNRule => ToNumber(v) == NaN
    case PriceNotPositiveRule => ToNumber(v) != NaN && IsNonPositive(ToNumber(v))
    case CategoryRule => !IsAllowedCategory(v)
    case StockRule => v != Undefined && (ToNumber(v) == NaN || IsNegative(ToNumber(v)))
  }

  predicate Fires(r: Rule, d: JsObject) {
    FiresOn(r, Get(d, FieldOf(r)))
  }

  /** The rules among the first `k` of the evaluation order that fire on `d`, in that order. */
  function FiredUpTo(k: nat, d: JsObject): (r: seq<Rule>) {
    if k == 0 then []
    else FiredUpTo(k - 1, d) + (if Fires(RuleAt(k - 1), d) then [RuleAt(k - 1)] else [])
  }

  /** The messages of a list of rules, position by position. */
  function Messages(rs: seq<Rule>): (ms: seq<string>)
    ensures |ms| == |rs|
  {
    if rs == [] then [] else Messages(rs[..|rs| - 1]) + [Message(rs[|rs| - 1])]
  }

  /** The error list `validarProduto(d)` returns. */
  function Erros(d: JsObject): (r: seq<string>) {
    Messages(FiredUpTo(6, d))
  }

  /** What `validarProduto(d)` returns: valid exactly when no message was produced. */
  function Verdict(d: JsObject): (r: Resultado) {
    Resultado(Erros(d) == [], Erros(d))
  }

  // ---------------------------------------------------------------------
  // The declarative error list, check by check
  // ---------------------------------------------------------------------

  /** The message `m` when `b` holds, nothing otherwise. */
  function When(b: bool, m: string): (r: seq<string>) {
    if b then [m] else []
  }

  /** What the rule at position `k` contributes to the error list. */
  function Contribution(k: nat, d: JsObject): (r: seq<string>) {
    When(Fires(RuleAt(k), d), Message(RuleAt(k)))
  }

  lemma MessagesStep(k: nat, d: JsObject)
    ensures Messages(FiredUpTo(k + 1, d)) == Messages(FiredUpTo(k, d)) + Contribution(k, d)
  {
    var rs := FiredUpTo(k, d);
    if Fires(RuleAt(k), d) {
      assert (rs + [RuleAt(k)])[..|rs|] == rs;
    } else {
      assert rs + [] == rs;
    }
  }

  lemma ErrosAsContributions(d: JsObject)
    ensures Messages(FiredUpTo(6, d)) == Contribution(0, d) + Contribution(1, d) + Contribution(2, d) +
      Contribution(3, d) + Contribution(4, d) + Contribution(5, d)
  {
    var c0, c1, c2 := Contribution(0, d), Contribution(1, d), Contribution(2, d);
    var c3, c4, c5 := Contribution(3, d), Contribution(4, d), Contribution(5, d);
    MessagesStep(0, d);
    assert Messages(FiredUpTo(1, d)) == c0;
    MessagesStep(1, d);
    assert Messages(FiredUpTo(2, d)) == c0 + c1;
    MessagesStep(2, d);
    assert Messages(FiredUpTo(3, d)) == c0 + c1 + c2;
    MessagesStep(3, d);
    assert Messages(FiredUpTo(4, d)) == c0 + c1 + c2 + c3;
    MessagesStep(4, d);
    assert Messages(FiredUpTo(5, d)) == c0 + c1 + c2 + c3 + c4;
    MessagesStep(5, d);
  }

  lemma TitleContribution(d: JsObject)
    ensures Contribution(0, d) ==
      When(TrimmedTitle(Get(d, "titulo")) == "" || |TrimmedTitle(Get(d, "titulo"))| < 5, MsgTitulo)
  {}

  lemma DescriptionContribution(d: JsObject)
    ensures Contribution(1, d) == When(Truthy(Get(d, "descricao")) && !Get(d, "descricao").Str?, MsgDescricao)
  {}

  lemma PriceNaNContribution(d: JsObject)
    ensures Contribution(2, d) == When(ToNumber(Get(d, "preco")) == NaN, MsgPrecoNumero)
  {}

  lemma PriceNotPositiveContribution(d: JsObject)
    ensures Contribution(3, d) ==
      When(ToNumber(Get(d, "preco")) != NaN && IsNonPositive(ToNumber(Get(d, "preco"))), MsgPrecoPositivo)
  {}

  lemma CategoryContribution(d: JsObject)
    ensures Contribution(4, d) == When(!IsAllowedCategory(Get(d, "categoria")), MsgCategoria)
  {}

  lemma StockContribution(d: JsObject)
    ensures Contribution(5, d) ==
      When(Get(d, "estoque") != Undefined &&
        (ToNumber(Get(d, "estoque")) == NaN || IsNegative(ToNumber(Get(d, "estoque")))), MsgEstoque)
  {}

  /** The error list, written check by check in the order `validarProduto` evaluates them. */
  lemma ErrosAsChecks(d: JsObject)
    ensures Erros(d) ==
      When(TrimmedTitle(Get(d, "titulo")) == "" || |TrimmedTitle(Get(d, "titulo"))| < 5, MsgTitulo) +
      When(Truthy(Get(d, "descricao")) && !Get(d, "descricao").Str?, MsgDescricao) +
      When(ToNumber(Get(d, "preco")) == NaN, MsgPrecoNumero) +
      When(ToNumber(Get(d, "preco")) != NaN && IsNonPositive(ToNumber(Get(d, "preco"))), MsgPrecoPositivo) +
      When(!IsAllowedCategory(Get(d, "categoria")), MsgCategoria) +
      When(Get(d, "estoque") != Undefined &&
        (ToNumber(Get(d, "estoque")) == NaN || IsNegative(ToNumber(Get(d, "estoque")))), MsgEstoque)
  {
    ErrosAsContributions(d);
    TitleContribution(d);
    DescriptionContribution(d);
    PriceNaNContribution(d);
    PriceNotPositiveContribution(d);
    CategoryContribution(d);
    StockContribution(d);
  }

  // ---------------------------------------------------------------------
  // validarProduto
  // ---------------------------------------------------------------------

  /**
    `validarProduto`: grows the error list in place through a series of
    independent checks. Calling it with no argument is calling it with `{}`.
   */
  method ValidarProduto(dados: JsObject) returns (r: Resultado)
    ensures r.erros == Erros(dados)
    ensures r.valido <==> r.erros == []
  {
    var erros: seq<string> := [];
    var titulo := TrimmedTitle(Get(dados, "titulo"));
    var descricao := Get(dados, "descricao");
    var preco := ToNumber(Get(dados, "preco"));
    var categoria := Get(dados, "categoria");
    var estoque := Get(dados, "estoque");

    if titulo == "" || |titulo| < 5 {
      erros := erros + [MsgTitulo];
    }
    ghost var afterTitle := erros;
    assert afterTitle == When(titulo == "" || |titulo| < 5, MsgTitulo);

    if Truthy(descricao) && !descricao.Str? {
      erros := erros + [MsgDescricao];
    }
    ghost var afterDescription := erros;
    assert afterDescription == afterTitle + When(Truthy(descricao) && !descricao.Str?, MsgDescricao);

    if preco == NaN {
      erros := erros + [MsgPrecoNumero];
    } else if IsNonPositive(preco) {
      erros := erros + [MsgPrecoPositivo];
    }
    ghost var afterPrice := erros;
    assert afterPrice == afterDescription + When(preco == NaN, MsgPrecoNumero) +
      When(preco != NaN && IsNonPositive(preco), MsgPrecoPositivo);

    if !IsAllowedCategory(categoria) {
      erros := erros + [MsgCategoria];
    }
    ghost var afterCategory := erros;
    assert afterCategory == afterPrice + When(!IsAllowedCategory(categoria), MsgCategoria);

    if estoque != Undefined && (ToNumber(estoque) == NaN || IsNegative(ToNumber(estoque))) {
      erros := erros + [MsgEstoque];
    }
    assert erros == afterCategory +
      When(estoque != Undefined && (ToNumber(estoque) == NaN || IsNegative(ToNumber(estoque))), MsgEstoque);

    ErrosAsChecks(dados);
    r := Resultado(|erros| == 0, erros);
  }

  // ---------------------------------------------------------------------
  // What the error list means
  // ---------------------------------------------------------------------

  lemma RuleAtRank(r: Rule)
    ensures RuleAt(Rank(r)) == r
  {}

  lemma MessageInjective(r1: Rule, r2: Rule)
    ensures Message(r1) == Message(r2) ==> r1 == r2
  {}

  /** A rule is among the first `k` fired exactly when it ranks below `k` and fires. */
  lemma {:induction false} FiredUpToMembers(k: nat, d: JsObject, r: Rule)
    requires k <= 6
    ensures r in FiredUpTo(k, d) <==> Rank(r) < k && Fires(r, d)
  {
    if k > 0 {
      FiredUpToMembers(k - 1, d, r);
      RuleAtRank(r);
    }
  }

  /** The fired rules come in strictly increasing rank, all below `k`. */
  lemma {:induction false} FiredUpToOrdered(k: nat, d: JsObject)
    requires k <= 6
    ensures forall i :: 0 <= i < |FiredUpTo(k, d)| ==> Rank(FiredUpTo(k, d)[i]) < k
    ensures forall i, j :: 0 <= i < j < |FiredUpTo(k, d)| ==> Rank(FiredUpTo(k, d)[i]) < Rank(FiredUpTo(k, d)[j])
  {
    if k > 0 {
      FiredUpToOrdered(k - 1, d);
    }
  }

  lemma {:induction false} MessagesAt(rs: seq<Rule>)
    ensures forall i :: 0 <= i < |rs| ==> Messages(rs)[i] == Message(rs[i])
  {
    if rs != [] {
      var init := rs[..|rs| - 1];
      MessagesAt(init);
      assert Messages(rs) == Messages(init) + [Message(rs[|rs| - 1])];
      forall i | 0 <= i < |rs|
        ensures Messages(rs)[i] == Message(rs[i])
      {
        if i < |init| {
          assert rs[i] == init[i];
        }
      }
    }
  }

  /**
    The errors are the messages of the rules that fired, position by
    position, and those rules appear in the order the checks are written,
    each at most once.
   */
  lemma ErrorsInRuleOrder(d: JsObject)
    ensures |Erros(d)| == |FiredUpTo(6, d)|
    ensures forall i :: 0 <= i < |Erros(d)| ==> Erros(d)[i] == Message(FiredUpTo(6, d)[i])
    ensures forall i, j :: 0 <= i < j < |Erros(d)| ==> Rank(FiredUpTo(6, d)[i]) < Rank(FiredUpTo(6, d)[j])
  {
    MessagesAt(FiredUpTo(6, d));
    FiredUpToOrdered(6, d);
  }

  /** A rule's message is in the error list exactly when that rule fires. */
  lemma ErrorIffFires(d: JsObject, r: Rule)
    ensures Message(r) in Erros(d) <==> Fires(r, d)
  {
    var fired := FiredUpTo(6, d);
    MessagesAt(fired);
    FiredUpToMembers(6, d, r);
    if Message(r) in Erros(d) {
      var i :| 0 <= i < |Erros(d)| && Erros(d)[i] == Message(r);
      MessageInjective(fired[i], r);
      assert fired[i] == r;
    }
    if Fires(r, d) {
      var i :| 0 <= i < |fired| && fired[i] == r;
      assert Erros(d)[i] == Message(r);
    }
  }

  /** `valido` holds exactly when no rule fires. */
  lemma ValidIffNoRuleFires(d: JsObject)
    ensures Verdict(d).valido <==> forall r: Rule :: !Fires(r, d)
  {
    if !Verdict(d).valido {
      var r := FiredUpTo(6, d)[0];
      FiredUpToMembers(6, d, r);
    } else {
      forall r: Rule ensures !Fires(r, d) {
        FiredUpToMembers(6, d, r);
      }
    }
  }

  lemma {:induction false} FiredUpToLength(k: nat, d: JsObject)
    requires k <= 6
    ensures |FiredUpTo(k, d)| <= k
  {
    if k > 0 {
      FiredUpToLength(k - 1, d);
    }
  }

  /** The two price rules exclude each other, so at most five messages are ever returned. */
  lemma AtMostFiveErrors(d: JsObject)
    ensures |Erros(d)| <= 5
  {
    FiredUpToLength(2, d);
    assert !(Fires(PriceNaNRule, d) && Fires(PriceNotPositiveRule, d));
    assert RuleAt(2) == PriceNaNRule && RuleAt(3) == PriceNotPositiveRule;
    assert |FiredUpTo(3, d)| <= 3;
    assert |FiredUpTo(4, d)| <= 3;
    assert |FiredUpTo(5, d)| <= 4;
    assert |FiredUpTo(6, d)| <= 5;
  }

  // ---------------------------------------------------------------------
  // Field by field
  // ---------------------------------------------------------------------

  /** The title passes exactly when it is a string of at least five characters once trimmed. */
  lemma TitleErrors(d: JsObject)
    ensures MsgTitulo !in Erros(d) <==> Get(d, "titulo").Str? && |Trim(Get(d, "titulo").s)| >= 5
  {
    ErrorIffFires(d, TitleRule);
  }

  /**
    The description passes when it is absent, a string, or any falsy value
    (`null`, `false`, `0`, `NaN`, `''`); `true`, a non-zero number and an
    object are rejected.
   */
  lemma DescriptionErrors(d: JsObject)
    ensures MsgDescricao in Erros(d) <==>
      var v := Get(d, "descricao");
      v == Bool(true) || (v.Num? && v.n != NaN && v.n != Fin(0.0)) || v.Object?
  {
    ErrorIffFires(d, DescriptionRule);
  }

  /**
    At most one price message: "not a number" exactly when `Number(preco)`
    is NaN (a missing price included), "not positive" exactly when it is a
    number that is not above zero; the price passes only when positive.
   */
  lemma PriceErrors(d: JsObject)
    ensures MsgPrecoNumero in Erros(d) <==> ToNumber(Get(d, "preco")) == NaN
    ensures MsgPrecoPositivo in Erros(d) <==> ToNumber(Get(d, "preco")) != NaN && IsNonPositive(ToNumber(Get(d, "preco")))
    ensures !(MsgPrecoNumero in Erros(d) && MsgPrecoPositivo in Erros(d))
    ensures MsgPrecoNumero !in Erros(d) && MsgPrecoPositivo !in Erros(d) <==>
      ToNumber(Get(d, "preco")) == PosInf || (ToNumber(Get(d, "preco")).Fin? && ToNumber(Get(d, "preco")).value > 0.0)
    ensures "preco" !in d ==> MsgPrecoNumero in Erros(d)
  {
    ErrorIffFires(d, PriceNaNRule);
    ErrorIffFires(d, PriceNotPositiveRule);
  }

  /** The category passes exactly when it is one of the three allowed strings, verbatim. */
  lemma CategoryErrors(d: JsObject)
    ensures MsgCategoria !in Erros(d) <==>
      Get(d, "categoria") == Str("Fruta") || Get(d, "categoria") == Str("Legume") || Get(d, "categoria") == Str("Verdura")
  {
    ErrorIffFires(d, CategoryRule);
  }

  /**
    The stock passes when absent or when `Number(estoque)` is zero or more;
    in particular `null` and a blank string pass, since both convert to 0.
   */
  lemma StockErrors(d: JsObject)
    ensures MsgEstoque !in Erros(d) <==>
      Get(d, "estoque") == Undefined || ToNumber(Get(d, "estoque")) == PosInf ||
      (ToNumber(Get(d, "estoque")).Fin? && ToNumber(Get(d, "estoque")).value >= 0.0)
    ensures Get(d, "estoque") == Null ==> MsgEstoque !in Erros(d)
    ensures Get(d, "estoque").Str? && AllWhiteSpace(Get(d, "estoque").s) ==> MsgEstoque !in Erros(d)
  {
    ErrorIffFires(d, StockRule);
    ToNumberFacts(Get(d, "estoque"));
  }

  /** Only the five fields are read: candidates that agree on them get the same verdict. */
  lemma ErrosDependOnlyOnFields(d1: JsObject, d2: JsObject)
    requires forall r: Rule :: Get(d1, FieldOf(r)) == Get(d2, FieldOf(r))
    ensures Erros(d1) == Erros(d2)
  {
    FiredUpToAgree(6, d1, d2);
  }

  lemma {:induction false} FiredUpToAgree(k: nat, d1: JsObject, d2: JsObject)
    requires forall r: Rule :: Get(d1, FieldOf(r)) == Get(d2, FieldOf(r))
    ensures FiredUpTo(k, d1) == FiredUpTo(k, d2)
  {
    if k > 0 {
      FiredUpToAgree(k - 1, d1, d2);
      assert Get(d1, FieldOf(RuleAt(k - 1))) == Get(d2, FieldOf(RuleAt(k - 1)));
    }
  }

  // ---------------------------------------------------------------------
  // Worked examples
  // ---------------------------------------------------------------------

  /** An empty body fails the title, price and category checks, in that order. */
  lemma EmptyCandidate()
    ensures Erros(map[]) == [MsgTitulo, MsgPrecoNumero, MsgCategoria]
  {
    ErrosAsChecks(map[]);
  }

  /** A two-letter title, a negative price and an unknown category give three errors. */
  lemma InvalidCandidate()
    ensures Erros(map["titulo" := Str("Ab"), "preco" := Num(Fin(-1.0)), "categoria" := Str("Carne")]) ==
      [MsgTitulo, MsgPrecoPositivo, MsgCategoria]
  {
    var d := map["titulo" := Str("Ab"), "preco" := Num(Fin(-1.0)), "categoria" := Str("Carne")];
    assert Get(d, "titulo") == Str("Ab") && Trim("Ab") == "Ab";
    assert Get(d, "descricao") == Undefined && Get(d, "estoque") == Undefined;
    assert ToNumber(Get(d, "preco")) == Fin(-1.0);
    assert Get(d, "categoria") == Str("Carne") && "Carne" !in CategoriasPermitidas;
    ErrosAsChecks(d);
  }

  /** Title, positive price and allowed category alone make a valid product. */
  lemma MinimalValidCandidate()
    ensures Verdict(map["titulo" := Str("Maçã Fuji"), "preco" := Num(Fin(3.5)), "categoria" := Str("Fruta")]).valido
  {
    var d := map["titulo" := Str("Maçã Fuji"), "preco" := Num(Fin(3.5)), "categoria" := Str("Fruta")];
    assert Get(d, "titulo") == Str("Maçã Fuji") && Trim("Maçã Fuji") == "Maçã Fuji";
    assert Get(d, "descricao") == Undefined && Get(d, "estoque") == Undefined;
    assert ToNumber(Get(d, "preco")) == Fin(3.5);
    assert Get(d, "categoria") == Str("Fruta");
    ErrosAsChecks(d);
  }
}
