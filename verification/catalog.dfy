/** The plant catalogue: the `Planta` record, the fixed `PLANTAS` table, the
    detail-view lookup by id and the evidence-level alert of the detail view. */
module Catalog {
  import opened Text

  datatype Option<T> = None | Some(value: T)

  /** One plant record. Every field is free text; `id` is the key used for the
      image file name and for navigation to the detail view. */
  datatype Planta = Planta(
    id: string,
    nome: string,
    nomeCientifico: string,
    categoria: string,
    descricao: string,
    mecanismo: string,
    dose: string,
    interacoes: string,
    adversos: string,
    contraindicacoes: string,
    nivelEvidencia: string)

  /** The catalogue, in display order. */
  const PLANTAS: seq<Planta> := [
    Planta("tribulus", "Tribulus", "Tribulus terrestris L.", "Hormonal", "Espécie rica em saponinas esteroidais.", "Aumento de LH, testosterona e DHEA. Estímulo de NO.", "250 mg, 3x ao dia (45% saponinas).", "Potencializa hormonais e TRH.", "Refluxo, náusea.", "Grávidas, HPB sem controle.", "Moderado"),
    Planta("maca", "Maca Peruana", "Lepidium meyenii Walp.", "Adaptógeno", "Raiz andina nutritiva e tônica.", "Modulação seminal e antioxidante. Inibição da FAAH.", "1,5 a 3 g/dia.", "Interfere em exames hormonais.", "Desconforto digestivo.", "Câncer hormônio-dependente.", "Alto"),
    Planta("ashwagandha", "Ashwagandha", "Withania somnifera", "Adaptógeno / Força", "Ginseng Indiano. Redução de cortisol.", "GABA-mimético, reduz cortisol, aumenta ATP.", "300-600 mg/dia.", "Potencializa sedativos.", "Sonolência, risco tireoidiano.", "Gravidez, doenças autoimunes.", "Alto"),
    Planta("mucuna", "Mucuna", "Mucuna pruriens", "Neuromodulador", "Fonte natural de L-DOPA.", "Aumenta dopamina, reduzindo prolactina.", "400 mg (20% L-DOPA).", "Contraindicado com IMAOs.", "Náusea, discinesia.", "Esquizofrenia, gravidez.", "Moderado"),
    Planta("longjack", "Long Jack", "Eurycoma longifolia", "Hormonal", "Tongkat Ali. Libera testosterona ligada.", "Reduz SHBG e conversão em estrogênio.", "400 mg/dia (euricomanona).", "Reduz absorção de propranolol.", "Raro risco hepático.", "Câncer de próstata.", "Moderado"),
    Planta("serenoa", "Saw Palmetto", "Serenoa repens", "Próstata", "Palmeira anã. Padrão ouro para próstata.", "Inibe 5-alfa-redutase (Testo -> DHT).", "320 mg/dia.", "Risco sangramento.", "Náusea, cefaleia.", "Mulheres em idade fértil.", "Alto"),
    Planta("ajuga", "Turkesterone", "Ajuga turkestanica", "Anabólico Natural", "Rica em ecdisteroides.", "Síntese proteica via receptor ERβ.", "500-2000 mg/dia.", "Sinergia com anabolizantes.", "Segurança alta em estudos curtos.", "Hipersensibilidade.", "Baixo"),
    Planta("prunus", "Pygeum", "Prunus africana", "Próstata", "Cerejeira africana. Anti-inflamatório.", "Inibe proliferação de fibroblastos.", "100-200 mg/dia.", "Seguro.", "Desconforto gástrico raro.", "Crianças.", "Alto"),
    Planta("urtica", "Urtiga", "Urtica dioica", "Próstata / SHBG", "Raiz de urtiga. 'Destrava' a testosterona.", "Liga-se à SHBG.", "300-600 mg/dia.", "Potencializa diuréticos.", "Leve desconforto GI.", "Insuficiência renal/cardíaca.", "Moderado"),
    Planta("feno", "Feno-Grego", "Trigonella foenum-graecum", "Metabólico", "Sementes para libido e glicemia.", "Inibição parcial aromatase. Sensibiliza LH.", "500-600 mg/dia.", "Potencializa insulina.", "Odor corporal característico.", "Gravidez.", "Alto"),
    Planta("tetradium", "Evodia", "Tetradium ruticarpum", "Metabólico", "Wu Zhu Yu. Termogênico.", "Agonista vanilóide.", "5-30 mg/dia (evodiamina).", "Inibe enzimas hepáticas CYP.", "Falta de dados.", "Não recomendado.", "Baixo"),
    Planta("cyanotis", "Cyanotis", "Cyanotis vaga", "Anabólico Natural", "Fonte de Beta-Ecdisterona.", "Similar ao Turkesterone.", "Dose não estabelecida.", "Desconhecidas.", "Falta de estudos.", "Não recomendado.", "Muito Baixo"),
    Planta("kaempferia", "Gengibre Preto", "Kaempferia parviflora", "Vigor", "Ginseng Tailandês. Vasodilatador.", "Inibe PDE5, aumenta NO.", "180-360 mg/dia.", "Cuidado com hipotensores.", "Bem tolerado.", "Crianças.", "Baixo"),
    Planta("bulbine", "Bulbine", "Bulbine latifolia", "Hormonal (Exp)", "Planta africana potente mas arriscada.", "Aumento agudo de testosterona.", "Não segura.", "Altera enzimas renais.", "Hepatotóxico.", "Contraindicado.", "Risco")
  ]

  /** The table's columns, in table order, written out once more. They carry
      no data of their own: `PlantasColumns` proves each equal to the matching
      field of `PLANTAS`. Proofs about one field read a column instead of the
      whole table, whose text makes every proof that unfolds it costly. */
  const IDS: seq<string> := [
    "tribulus", "maca", "ashwagandha", "mucuna", "longjack", "serenoa", "ajuga",
    "prunus", "urtica", "feno", "tetradium", "cyanotis", "kaempferia", "bulbine"]
  const NOMES: seq<string> := [
    "Tribulus", "Maca Peruana", "Ashwagandha", "Mucuna", "Long Jack", "Saw Palmetto", "Turkesterone",
    "Pygeum", "Urtiga", "Feno-Grego", "Evodia", "Cyanotis", "Gengibre Preto", "Bulbine"]
  const CATEGORIAS: seq<string> := [
    "Hormonal", "Adaptógeno", "Adaptógeno / Força", "Neuromodulador", "Hormonal", "Próstata",
    "Anabólico Natural", "Próstata", "Próstata / SHBG", "Metabólico", "Metabólico",
    "Anabólico Natural", "Vigor", "Hormonal (Exp)"]
  const DESCRICOES: seq<string> := [
    "Espécie rica em saponinas esteroidais.",
    "Raiz andina nutritiva e tônica.",
    "Ginseng Indiano. Redução de cortisol.",
    "Fonte natural de L-DOPA.",
    "Tongkat Ali. Libera testosterona ligada.",
    "Palmeira anã. Padrão ouro para próstata.",
    "Rica em ecdisteroides.",
    "Cerejeira africana. Anti-inflamatório.",
    "Raiz de urtiga. 'Destrava' a testosterona.",
    "Sementes para libido e glicemia.",
    "Wu Zhu Yu. Termogênico.",
    "Fonte de Beta-Ecdisterona.",
    "Ginseng Tailandês. Vasodilatador.",
    "Planta africana potente mas arriscada."]
  const NIVEIS: seq<string> := [
    "Moderado", "Alto", "Alto", "Moderado", "Moderado", "Alto", "Baixo",
    "Alto", "Moderado", "Alto", "Baixo", "Muito Baixo", "Baixo", "Risco"]

  /** Record `k` of the table has the id, name, category, description and
      evidence level listed at `k` in the columns above. */
  lemma PlantasColumns(k: int)
    requires 0 <= k < |PLANTAS|
    ensures PLANTAS[k].id == IDS[k] && PLANTAS[k].nome == NOMES[k]
    ensures PLANTAS[k].categoria == CATEGORIAS[k]
    ensures PLANTAS[k].descricao == DESCRICOES[k] && PLANTAS[k].nivelEvidencia == NIVEIS[k]
  {
    assert forall i :: 0 <= i < |PLANTAS| ==>
      PLANTAS[i].id == IDS[i] && PLANTAS[i].nome == NOMES[i] &&
      PLANTAS[i].categoria == CATEGORIAS[i] &&
      PLANTAS[i].descricao == DESCRICOES[i] && PLANTAS[i].nivelEvidencia == NIVEIS[i];
  }

  /** No two records of `ps` share an id. */
  predicate DistinctIds(ps: seq<Planta>)
  {
    forall i, j :: 0 <= i < j < |ps| ==> ps[i].id != ps[j].id
  }

  /** The table holds fourteen records and its ids are a key. */
  lemma PlantasWellFormed()
    ensures |PLANTAS| == 14
    ensures DistinctIds(PLANTAS)
  {
    forall i | 0 <= i < |PLANTAS| ensures PLANTAS[i].id == IDS[i] {
      PlantasColumns(i);
    }
    assert forall i, j :: 0 <= i < j < |IDS| ==> IDS[i] != IDS[j];
  }

  /** The detail-view lookup: the first record whose id equals the selected
      id, as Python's `next(..., None)` over the table; `None` when no record
      matches, which is always the case for a `None` selection. */
  function FindById(ps: seq<Planta>, id: Option<string>): (r: Option<Planta>)
    ensures r.Some? ==> r.value in ps && id == Some(r.value.id)
    ensures r.None? <==> forall p :: p in ps ==> id != Some(p.id)
  {
    if ps == [] then None
    else if Some(ps[0].id) == id then Some(ps[0])
    else FindById(ps[1..], id)
  }

  /** The lookup returns the first matching record, whatever comes after it. */
  lemma {:induction false} FindByIdFirst(ps: seq<Planta>, id: Option<string>, k: int)
    requires 0 <= k < |ps| && id == Some(ps[k].id)
    requires forall j :: 0 <= j < k ==> id != Some(ps[j].id)
    ensures FindById(ps, id) == Some(ps[k])
  {
    if k > 0 {
      FindByIdFirst(ps[1..], id, k - 1);
    }
  }

  /** With distinct ids, looking up the id of any record gives that record back. */
  lemma FindByIdOfMember(ps: seq<Planta>, p: Planta)
    requires DistinctIds(ps) && p in ps
    ensures FindById(ps, Some(p.id)) == Some(p)
  {
    var k :| 0 <= k < |ps| && ps[k] == p;
    FindByIdFirst(ps, Some(p.id), k);
  }

  /** The three notices of the evidence panel of the detail view. */
  datatype Alert = Success(message: string) | Error(message: string) | Warning(message: string)

  /** The evidence panel: exactly "Alto" is a success; otherwise a level that
      mentions "Risco" is an error; every other level is a warning that
      repeats the level. */
  function EvidenceAlert(nivel: string): (a: Alert)
    ensures a.Success? <==> nivel == "Alto"
    ensures a.Error? <==> nivel != "Alto" && Contains(nivel, "Risco")
    ensures a.Warning? <==> nivel != "Alto" && !Contains(nivel, "Risco")
    ensures a.Warning? ==> a.message == "Nível: " + nivel
  {
    if nivel == "Alto" then Success("Nível Alto: Estudos Clínicos Robustos")
    else if Contains(nivel, "Risco") then Error("⚠️ Atenção: Risco Elevado")
    else Warning("Nível: " + nivel)
  }

  /** The evidence levels the table uses. */
  const NIVEIS_USADOS: seq<string> := ["Muito Baixo", "Baixo", "Moderado", "Alto", "Risco"]

  /** A level without a capital R cannot contain "Risco". */
  lemma NoRisco(nivel: string)
    requires 'R' !in nivel
    ensures !Contains(nivel, "Risco")
  {
    if Contains(nivel, "Risco") {
      ContainsChar(nivel, "Risco", 0);
    }
  }

  /** Among the levels the table uses, exactly "Alto" gives the success notice
      and exactly "Risco" the error notice; the others give a warning. */
  lemma LevelAlert(nivel: string)
    requires nivel in NIVEIS_USADOS
    ensures EvidenceAlert(nivel).Success? <==> nivel == "Alto"
    ensures EvidenceAlert(nivel).Error? <==> nivel == "Risco"
    ensures EvidenceAlert(nivel).Warning? <==> nivel in ["Muito Baixo", "Baixo", "Moderado"]
  {
    if nivel == "Risco" {
      assert OccursAt(nivel, "Risco", 0);
      ContainsAt(nivel, "Risco", 0);
    } else {
      assert 'R' !in nivel;
      NoRisco(nivel);
    }
  }

  /** The evidence column uses only the levels above, and "Risco" only in the
      last row, which is bulbine's. */
  lemma NiveisColumn(k: int)
    requires 0 <= k < |NIVEIS|
    ensures |IDS| == |NIVEIS|
    ensures NIVEIS[k] in NIVEIS_USADOS
    ensures NIVEIS[k] == "Risco" <==> k == 13
    ensures IDS[k] == "bulbine" <==> k == 13
  {
    assert forall i :: 0 <= i < |NIVEIS| ==> NIVEIS[i] in NIVEIS_USADOS;
    assert forall i :: 0 <= i < 13 ==> NIVEIS[i] != "Risco" && IDS[i] != "bulbine";
  }

  /** In the table, bulbine (level "Risco") is the one record whose detail view
      shows the error notice (`st.error`), and the "Alto" records are exactly those
      that show a success. */
  lemma PlantasEvidence(k: int)
    requires 0 <= k < |PLANTAS|
    ensures EvidenceAlert(PLANTAS[k].nivelEvidencia).Error? <==> PLANTAS[k].id == "bulbine"
    ensures EvidenceAlert(PLANTAS[k].nivelEvidencia).Success? <==> PLANTAS[k].nivelEvidencia == "Alto"
  {
    PlantasColumns(k);
    NiveisColumn(k);
    LevelAlert(NIVEIS[k]);
  }
}
