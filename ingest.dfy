/**
 * The asset catalogue build of app/ingest.py (BuildNodes): the example
 * catalogue of schemas, tables and columns, the labelled description each
 * row is rewritten to, the documents made from the rows, and the
 * alignment of each document with its embedding. Embedding, Chroma and
 * index insertion are foreign.
 */
module Ingest {

  import opened Wrappers
  import opened Text
  import opened Nodes
  import opened Tools
  import opened UserOutput

  /** One row of the assets DataFrame, by column. */
  datatype AssetRow = AssetRow(
    name: string,                // "nome asset"
    kind: string,                // "tipo asset"
    description: string,         // "descrizione asset"
    schema: string,              // "schema di appartenenza"
    schemaDescription: string,   // "descrizione schema"
    table: string,               // "tabella di appartenenza"
    tableDescription: string)    // "descrizione tabella di appartenenza"

  /** The DataFrame's columns, in the order of the literal's keys. */
  const Columns: seq<string> := [
    "nome asset", "tipo asset", "descrizione asset", "schema di appartenenza",
    "descrizione schema", "tabella di appartenenza", "descrizione tabella di appartenenza"
  ]

  /*
   * The catalogue literal. Each schema and table name appears in the
   * literal both on its own row and on the rows below it; here it is named
   * once and used in every place it appears.
   */
  const AnagraficaClienti: string := "anagrafica clienti"
  const Clienti: string := "clienti"
  const AnagraficaProdotti: string := "anagrafica prodotti"
  const Prodotti: string := "prodotti"
  const AnagraficaFiliali: string := "anagrafica filiali"
  const Filiali: string := "filiali"

  /**
   * The catalogue literal's layout: the 27 rows in order, with row i's
   * description taken from d[i]. A child row's schema and table
   * descriptions are the same d[j] as its parent row's own description.
   * This sharing stands for the literal repeating each parent's text
   * verbatim in its children, so the parent-description lemmas below
   * hold by this construction; they do not compare separate copies of
   * the texts.
   */
  function Catalogue(d: seq<string>): (rows: seq<AssetRow>)
    requires |d| == 27
    ensures |rows| == 27
  {
    [
      AssetRow(AnagraficaClienti, "schema", d[0], "", "", "", ""),
      AssetRow(Clienti, "tabella", d[1], AnagraficaClienti, d[0], "", ""),
      AssetRow("codice_cliente", "colonna", d[2], AnagraficaClienti, d[0], Clienti, d[1]),
      AssetRow("nome", "colonna", d[3], AnagraficaClienti, d[0], Clienti, d[1]),
      AssetRow("cognome", "colonna", d[4], AnagraficaClienti, d[0], Clienti, d[1]),
      AssetRow("data_nascita", "colonna", d[5], AnagraficaClienti, d[0], Clienti, d[1]),
      AssetRow("via", "colonna", d[6], AnagraficaClienti, d[0], Clienti, d[1]),
      AssetRow("numero_civico", "colonna", d[7], AnagraficaClienti, d[0], Clienti, d[1]),
      AssetRow("città", "colonna", d[8], AnagraficaClienti, d[0], Clienti, d[1]),
      AssetRow("CAP", "colonna", d[9], AnagraficaClienti, d[0], Clienti, d[1]),
      AssetRow("numero_telefono", "colonna", d[10], AnagraficaClienti, d[0], Clienti, d[1]),
      AssetRow("email", "colonna", d[11], AnagraficaClienti, d[0], Clienti, d[1]),
      AssetRow(AnagraficaProdotti, "schema", d[12], "", "", "", ""),
      AssetRow(Prodotti, "tabella", d[13], AnagraficaProdotti, d[12], "", ""),
      AssetRow("codice_prodotto", "colonna", d[14], AnagraficaProdotti, d[12], Prodotti, d[13]),
      AssetRow("nome_prodotto", "colonna", d[15], AnagraficaProdotti, d[12], Prodotti, d[13]),
      AssetRow("tipo_prodotto", "colonna", d[16], AnagraficaProdotti, d[12], Prodotti, d[13]),
      AssetRow("tasso_interesse", "colonna", d[17], AnagraficaProdotti, d[12], Prodotti, d[13]),
      AssetRow("commissione_annuale", "colonna", d[18], AnagraficaProdotti, d[12], Prodotti, d[13]),
      AssetRow("limite_credito", "colonna", d[19], AnagraficaProdotti, d[12], Prodotti, d[13]),
      AssetRow("durata_minima", "colonna", d[20], AnagraficaProdotti, d[12], Prodotti, d[13]),
      AssetRow(AnagraficaFiliali, "schema", d[21], "", "", "", ""),
      AssetRow(Filiali, "tabella", d[22], AnagraficaFiliali, d[21], "", ""),
      AssetRow("codice_filiale", "colonna", d[23], AnagraficaFiliali, d[21], Filiali, d[22]),
      AssetRow("nome_filiale", "colonna", d[24], AnagraficaFiliali, d[21], Filiali, d[22]),
      AssetRow("indirizzo", "colonna", d[25], AnagraficaFiliali, d[21], Filiali, d[22]),
      AssetRow("manager", "colonna", d[26], AnagraficaFiliali, d[21], Filiali, d[22])
    ]
  }

  /** The description of each catalogue row, in row order. */
  const Descriptions: seq<string> := [
    "Schema che contiene le informazioni anagrafiche dei clienti della banca, inclusi dettagli personali e dati di contatto.",
    "Tabella contenente i dati principali di identificazione dei clienti. Ogni riga rappresenta un cliente univoco con un identificativo.",
    "Codice identificativo univoco assegnato a ciascun cliente della banca. Utilizzato per legare i record dei clienti con altre tabelle.",
    "Nome del cliente. Campo testuale che contiene il nome proprio del cliente come indicato nei documenti di identificazione.",
    "Cognome del cliente. Campo testuale che contiene il cognome del cliente come indicato nei documenti di identificazione.",
    "Data di nascita del cliente, formattata come 'YYYY-MM-DD'. Essenziale per verificare l'età e l'idoneità a determinati servizi.",
    "Via di residenza del cliente. Campo testuale che indica il nome della strada come riportato nei documenti ufficiali.",
    "Numero civico associato all’indirizzo di residenza del cliente. Identifica il luogo preciso della residenza all’interno della via specificata.",
    "Città di residenza del cliente. Campo testuale che indica il comune di residenza del cliente.",
    "Codice di avviamento postale associato all’indirizzo del cliente, utilizzato per identificare la zona geografica di residenza.",
    "Numero di telefono del cliente, utilizzato per contattare il cliente per questioni bancarie o di servizio. Formattato come 'XXX-XXX-XXXX'.",
    "Indirizzo email del cliente, usato per l'invio di comunicazioni e notifiche digitali della banca. Campo testuale.",
    "Schema che contiene le informazioni sui prodotti bancari offerti, inclusi dettagli su conti, prestiti e carte di credito.",
    "Tabella contenente informazioni generali sui prodotti finanziari disponibili. Ogni riga rappresenta un prodotto univoco della banca.",
    "Codice univoco che identifica ogni prodotto bancario. Utilizzato per collegare i prodotti con altre tabelle o per reportistica.",
    "Nome del prodotto bancario, come 'Conto Corrente Base' o 'Prestito Personale'.",
    "Tipologia del prodotto, ad esempio 'conto corrente', 'prestito' o 'carta di credito'.",
    "Tasso di interesse applicabile al prodotto bancario, espresso in percentuale. Rilevante per prestiti e conti con interessi.",
    "Commissione annuale associata al prodotto bancario, applicata generalmente a carte di credito e conti premium.",
    "Limite massimo di credito disponibile per il prodotto. Rilevante per carte di credito e linee di credito.",
    "Durata minima del contratto per il prodotto, espressa in mesi. Rilevante per prestiti e alcuni tipi di conti vincolati.",
    "Schema che raccoglie tutte le informazioni relative alle filiali della banca, incluse le informazioni di localizzazione, contatti e manager.",
    "Tabella principale dello schema anagrafica filiali, contenente l'elenco di tutte le filiali con informazioni di base quali nome, codice, indirizzo e stato di apertura.",
    "Codice identificativo univoco della filiale, utilizzato internamente per identificare ciascuna sede.",
    "Nome ufficiale della filiale, generalmente corrispondente alla città o alla zona di riferimento della sede.",
    "Indirizzo fisico della filiale, comprendente via, numero civico, città e CAP, utile per localizzare esattamente la posizione della sede.",
    "Nome del manager responsabile della filiale, con il compito di supervisionare le operazioni e gestire il personale."
  ]

  /** The catalogue of the source's data dictionary. */
  const Data: seq<AssetRow> := Catalogue(Descriptions)

  /** The seven labelled lines of concatenate_row, in order. */
  function RowLines(row: AssetRow): seq<string>
  {
    [ "Descrizione: " + row.description,
      "Nome asset: " + row.name,
      "Tipo asset: " + row.kind,
      "Nome tabella: " + row.table,
      "Descrizione tabella: " + row.tableDescription,
      "Schema tabella: " + row.schema,
      "Descrizione schema tabella: " + row.schemaDescription ]
  }

  /** The description concatenate_row produces: the lines joined by newlines. */
  function RowText(row: AssetRow): string
  {
    Join("\n", RowLines(row))
  }

  /** concatenate_row: `result` grows by one labelled field at a time. */
  method ConcatenateRow(row: AssetRow) returns (result: string)
    ensures result == RowText(row)
  {
    ghost var lines := ["Descrizione: " + row.description];
    result := "Descrizione: " + row.description;
    AppendLine(result, lines, "\nNome asset: ", "Nome asset: ", row.name);
    result, lines := result + "\nNome asset: " + row.name, lines + ["Nome asset: " + row.name];
    AppendLine(result, lines, "\nTipo asset: ", "Tipo asset: ", row.kind);
    result, lines := result + "\nTipo asset: " + row.kind, lines + ["Tipo asset: " + row.kind];
    AppendLine(result, lines, "\nNome tabella: ", "Nome tabella: ", row.table);
    result, lines := result + "\nNome tabella: " + row.table, lines + ["Nome tabella: " + row.table];
    AppendLine(result, lines, "\nDescrizione tabella: ", "Descrizione tabella: ", row.tableDescription);
    result, lines := result + "\nDescrizione tabella: " + row.tableDescription,
      lines + ["Descrizione tabella: " + row.tableDescription];
    AppendLine(result, lines, "\nSchema tabella: ", "Schema tabella: ", row.schema);
    result, lines := result + "\nSchema tabella: " + row.schema, lines + ["Schema tabella: " + row.schema];
    AppendLine(result, lines, "\nDescrizione schema tabella: ", "Descrizione schema tabella: ", row.schemaDescription);
    result, lines := result + "\nDescrizione schema tabella: " + row.schemaDescription,
      lines + ["Descrizione schema tabella: " + row.schemaDescription];
    assert lines == RowLines(row);
  }

  /** Appending a newline-led labelled field extends the joined lines by one. */
  lemma AppendLine(acc: string, lines: seq<string>, piece: string, lead: string, field: string)
    requires |lines| >= 1 && acc == Join("\n", lines) && piece == "\n" + lead
    ensures acc + piece + field == Join("\n", lines + [lead + field])
  {
    JoinSnoc("\n", lines, lead + field);
    Regroup(acc, "\n", lead, field);
  }

  lemma Regroup(a: string, b: string, c: string, d: string)
    ensures a + (b + c) + d == a + b + (c + d)
  {
  }

  predicate NoNewline(row: AssetRow)
  {
    '\n' !in row.name && '\n' !in row.kind && '\n' !in row.description && '\n' !in row.schema
    && '\n' !in row.schemaDescription && '\n' !in row.table && '\n' !in row.tableDescription
  }

  /**
   * When no field holds a newline, the description splits back into the
   * seven labelled lines, in order, each label present even for an empty
   * field.
   */
  lemma RowTextLines(row: AssetRow)
    requires NoNewline(row)
    ensures Split(RowText(row), '\n') == RowLines(row)
    ensures |Split(RowText(row), '\n')| == 7
  {
    var lines := RowLines(row);
    forall i | 0 <= i < |lines| ensures '\n' !in lines[i] {
      NoNewlineConcat(["Descrizione: ", "Nome asset: ", "Tipo asset: ", "Nome tabella: ",
                       "Descrizione tabella: ", "Schema tabella: ", "Descrizione schema tabella: "][i],
                      [row.description, row.name, row.kind, row.table, row.tableDescription,
                       row.schema, row.schemaDescription][i]);
    }
    SplitJoin(lines, '\n');
  }

  lemma NoNewlineConcat(prefix: string, field: string)
    requires '\n' !in prefix && '\n' !in field
    ensures '\n' !in prefix + field
  {
  }

  /** prepare_dataframe: the description column rewritten by concatenate_row. */
  function PrepareRows(rows: seq<AssetRow>): (r: seq<AssetRow>)
    ensures |r| == |rows|
    ensures forall i :: 0 <= i < |rows| ==>
      r[i].description == RowText(rows[i]) && r[i] == rows[i].(description := r[i].description)
  {
    if |rows| == 0 then []
    else [rows[0].(description := RowText(rows[0]))] + PrepareRows(rows[1..])
  }

  /** The Document fields the builder passes. */
  datatype Document = Document(
    text: string, metadata: Metadata,
    excludedEmbedMetadataKeys: seq<string>, excludedLlmMetadataKeys: seq<string>,
    textTemplate: string, metadataTemplate: string, metadataSeparator: string,
    embedding: Option<seq<real>>)

  /** The row as a record of every column except the description, in column order. */
  function OtherColumns(row: AssetRow): Metadata
  {
    [ ("nome asset", row.name), ("tipo asset", row.kind),
      ("schema di appartenenza", row.schema), ("descrizione schema", row.schemaDescription),
      ("tabella di appartenenza", row.table), ("descrizione tabella di appartenenza", row.tableDescription) ]
  }

  function Keys(items: Metadata): seq<string>
  {
    if |items| == 0 then [] else [items[0].0] + Keys(items[1..])
  }

  /** [x for x in s if x != y] */
  function Without(s: seq<string>, y: string): (r: seq<string>)
  {
    if |s| == 0 then [] else (if s[0] != y then [s[0]] else []) + Without(s[1..], y)
  }

  /** The metadata keys of every document, in order. */
  const MetadataKeys: seq<string> := [
    "nome asset", "tipo asset", "schema di appartenenza", "descrizione schema",
    "tabella di appartenenza", "descrizione tabella di appartenenza"
  ]

  lemma OtherColumnsKeyList(row: AssetRow)
    ensures Keys(OtherColumns(row)) == MetadataKeys
  {
    var keys := MetadataKeys;
    var m := OtherColumns(row);
    assert Keys(m[6..]) == [];
    assert Keys(m[5..]) == keys[5..];
    assert Keys(m[4..]) == keys[4..];
    assert Keys(m[3..]) == keys[3..];
    assert Keys(m[2..]) == keys[2..];
    assert Keys(m[1..]) == keys[1..];
  }

  lemma ColumnsWithoutDescription()
    ensures Without(Columns, "descrizione asset") == MetadataKeys
  {
    var c := Columns;
    forall i | 0 <= i < |c| && i != 2 ensures c[i] != "descrizione asset" {
    }
    WithoutSingle(c, 2, "descrizione asset");
    assert c[..2] + c[3..] == MetadataKeys;
  }

  /** Filtering out a value that occurs once removes exactly that position. */
  lemma {:induction false} WithoutSingle(s: seq<string>, k: nat, y: string)
    requires k < |s| && s[k] == y
    requires forall i :: 0 <= i < |s| && i != k ==> s[i] != y
    ensures Without(s, y) == s[..k] + s[k + 1..]
    decreases |s|
  {
    if k == 0 {
      WithoutAbsent(s[1..], y);
    } else {
      WithoutSingle(s[1..], k - 1, y);
      assert s[..k] == [s[0]] + s[1..][..k - 1];
      assert s[k + 1..] == s[1..][k..];
    }
  }

  lemma {:induction false} WithoutAbsent(s: seq<string>, y: string)
    requires forall i :: 0 <= i < |s| ==> s[i] != y
    ensures Without(s, y) == s
    decreases |s|
  {
    if |s| > 0 {
      WithoutAbsent(s[1..], y);
    }
  }

  /** The metadata keys are the columns other than the description, in order. */
  lemma OtherColumnsKeys(row: AssetRow)
    ensures Keys(OtherColumns(row)) == Without(Columns, "descrizione asset")
  {
    OtherColumnsKeyList(row);
    ColumnsWithoutDescription();
  }

  /** No column is called 'Descrizione', so every column is excluded from the embedding. */
  const ExcludedEmbedKeys: seq<string> := Without(Columns, "Descrizione")

  lemma ExcludedEmbedKeysAreColumns()
    ensures ExcludedEmbedKeys == Columns
  {
    var c := Columns;
    assert c[1..][1..][1..][1..][1..][1..][1..] == [];
  }

  function MakeDocument(text: string, metadata: Metadata): Document
  {
    Document(text, metadata, ExcludedEmbedKeys, [], "{metadata_str}\nDescrizione asset: {content}",
             "{key}: \"{value}\"", "\n", None)
  }

  /** The documents: the description column zipped with the other-column records. */
  function BuildDocuments(rows: seq<AssetRow>): (r: seq<Document>)
    ensures |r| == |rows|
    ensures forall i :: 0 <= i < |rows| ==> r[i] == MakeDocument(rows[i].description, OtherColumns(rows[i]))
  {
    if |rows| == 0 then []
    else [MakeDocument(rows[0].description, OtherColumns(rows[0]))] + BuildDocuments(rows[1..])
  }

  /**
   * Document i of the prepared rows has row i's labelled description as its
   * text and row i's other columns as its metadata, every column excluded
   * from the embedding, none from the LLM, and no embedding yet.
   */
  lemma DocumentsOfRows(rows: seq<AssetRow>, i: nat)
    requires i < |rows|
    ensures |BuildDocuments(PrepareRows(rows))| == |rows|
    ensures BuildDocuments(PrepareRows(rows))[i].text == RowText(rows[i])
    ensures BuildDocuments(PrepareRows(rows))[i].metadata == OtherColumns(rows[i])
    ensures BuildDocuments(PrepareRows(rows))[i].excludedEmbedMetadataKeys == Columns
    ensures BuildDocuments(PrepareRows(rows))[i].excludedLlmMetadataKeys == []
    ensures BuildDocuments(PrepareRows(rows))[i].embedding.None?
  {
    ExcludedEmbedKeysAreColumns();
  }

  /**
   * The metadata keys written here are lower case and never match the
   * whitelist of the source formatter, so a node carrying them shows no
   * metadata line: only the description and score sections.
   */
  lemma IngestMetadataNotShown(row: AssetRow, node: TextNode, score: Score)
    requires node.metadata == OtherColumns(row)
    ensures MetadataLines(node.metadata) == ""
    ensures FormatSourceText(NodeWithScore(node, score)) == Sections(NodeWithScore(node, score))
  {
    var m := OtherColumns(row);
    forall i | 0 <= i < |m| ensures m[i].0 !in ShowMetadata {
      assert m[i].0[0] in "ntsd";
    }
    NoShownKeysNoLines(m);
  }

  datatype IngestError = IndexError

  function Texts(docs: seq<Document>): (r: seq<string>)
    ensures |r| == |docs| && forall i :: 0 <= i < |docs| ==> r[i] == docs[i].text
  {
    if |docs| == 0 then [] else [docs[0].text] + Texts(docs[1..])
  }

  /**
   * The embedding loop: document i gets embedding i. With fewer embeddings
   * than documents the loop stops at the first missing one with an
   * IndexError, having assigned those before it.
   */
  method AssignEmbeddings(docs: array<Document>, batch: seq<seq<real>>) returns (r: Result<(), IngestError>)
    modifies docs
    ensures r.Ok? <==> docs.Length <= |batch|
    ensures forall i :: 0 <= i < docs.Length ==>
      docs[i] == if i < |batch| then old(docs[i]).(embedding := Some(batch[i])) else old(docs[i])
  {
    for i := 0 to docs.Length
      invariant i <= |batch| || i == 0
      invariant forall k :: 0 <= k < i ==> k < |batch| && docs[k] == old(docs[k]).(embedding := Some(batch[k]))
      invariant forall k :: i <= k < docs.Length ==> docs[k] == old(docs[k])
    {
      if i >= |batch| {
        return Err(IndexError);
      }
      docs[i] := docs[i].(embedding := Some(batch[i]));
    }
    r := Ok(());
  }

  /** The documents placed in a fresh array, given their embeddings, and read back. */
  method EmbedDocuments(docs: seq<Document>, batch: seq<seq<real>>) returns (r: Result<seq<Document>, IngestError>)
    ensures r.Ok? <==> |docs| <= |batch|
    ensures r.Ok? ==>
      (|r.value| == |docs|
       && forall i :: 0 <= i < |docs| ==> r.value[i] == docs[i].(embedding := Some(batch[i])))
  {
    var a := new Document[|docs|](i requires 0 <= i < |docs| => docs[i]);
    assert a[..] == docs;
    var outcome := AssignEmbeddings(a, batch);
    if outcome.Err? {
      return Err(IndexError);
    }
    r := Ok(a[..]);
  }

  /**
   * BuildNodes: the prepared catalogue and the name of the collection the
   * documents go to.
   */
  class BuildNodes {
    const dfAssets: seq<AssetRow>
    const collectionName: string

    /** __init__: the catalogue prepared by prepare_dataframe. */
    constructor ()
      ensures dfAssets == PrepareRows(Data) && collectionName == "demo"
    {
      dfAssets := PrepareRows(Data);
      collectionName := "demo";
    }

    /**
     * run_builder up to the index insertion: the prepared rows become
     * documents, their texts are embedded in one batch (`embedBatch`, the
     * embedding model), and each document receives the embedding at its
     * position.
     */
    method RunBuilder(embedBatch: seq<string> -> seq<seq<real>>) returns (r: Result<seq<Document>, IngestError>)
      ensures var docs := BuildDocuments(dfAssets);
        var batch := embedBatch(Texts(docs));
        (r.Ok? <==> |docs| <= |batch|)
        && (r.Ok? ==>
            (|r.value| == |docs|
             && forall i :: 0 <= i < |docs| ==> r.value[i] == docs[i].(embedding := Some(batch[i]))))
    {
      var docs := BuildDocuments(dfAssets);
      r := EmbedDocuments(docs, embedBatch(Texts(docs)));
    }
  }

  /* The catalogue's own consistency. */

  predicate NamesUnique(rows: seq<AssetRow>)
  {
    forall i, j :: 0 <= i < j < |rows| ==> rows[i].name != rows[j].name
  }

  /** Schemas have no parents, tables name a schema only, columns a schema and a table. */
  predicate WellShaped(row: AssetRow)
  {
    match row.kind
    case "schema" => row.schema == "" && row.schemaDescription == "" && row.table == "" && row.tableDescription == ""
    case "tabella" => row.schema != "" && row.table == "" && row.tableDescription == ""
    case "colonna" => row.schema != "" && row.table != ""
    case _ => false
  }

  /** Row j is the schema row i names, and i repeats its description. */
  predicate SchemaOf(rows: seq<AssetRow>, i: nat, j: nat)
    requires i < |rows| && j < |rows|
  {
    rows[j].kind == "schema" && rows[j].name == rows[i].schema && rows[j].description == rows[i].schemaDescription
  }

  /** Row j is the table row i names, in the same schema, and i repeats its description. */
  predicate TableOf(rows: seq<AssetRow>, i: nat, j: nat)
    requires i < |rows| && j < |rows|
  {
    rows[j].kind == "tabella" && rows[j].name == rows[i].table && rows[j].schema == rows[i].schema
    && rows[j].description == rows[i].tableDescription
  }

  /** The catalogue's asset names, in row order. */
  const AssetNames: seq<string> := [
    "anagrafica clienti", "clienti", "codice_cliente", "nome", "cognome", "data_nascita", "via",
    "numero_civico", "città", "CAP", "numero_telefono", "email", "anagrafica prodotti",
    "prodotti", "codice_prodotto", "nome_prodotto", "tipo_prodotto", "tasso_interesse",
    "commissione_annuale", "limite_credito", "durata_minima", "anagrafica filiali", "filiali",
    "codice_filiale", "nome_filiale", "indirizzo", "manager"
  ]

  lemma AssetNamesDistinct()
    ensures forall i, j :: 0 <= i < j < |AssetNames| ==> AssetNames[i] != AssetNames[j]
  {
  }

  lemma CatalogNames(d: seq<string>)
    requires |d| == 27
    ensures |AssetNames| == 27
    ensures forall i :: 0 <= i < 27 ==> Catalogue(d)[i].name == AssetNames[i]
  {
  }

  /** The catalogue has 27 rows with pairwise distinct names. */
  lemma CatalogNamesUnique(d: seq<string>)
    requires |d| == 27
    ensures NamesUnique(Catalogue(d))
  {
    CatalogNames(d);
    AssetNamesDistinct();
  }

  /** The index of the schema row of each group: clients, products, branches. */
  function SchemaRowOf(i: nat): nat
  {
    if i < 12 then 0 else if i < 21 then 12 else 21
  }

  /** The index of the table row of each group. */
  function TableRowOf(i: nat): nat
  {
    if i < 12 then 1 else if i < 21 then 13 else 22
  }

  predicate IsSchemaRow(i: nat) { i == 0 || i == 12 || i == 21 }

  predicate IsTableRow(i: nat) { i == 1 || i == 13 || i == 22 }

  /**
   * The catalogue's layout: each group is a schema row, then its table
   * row, then the table's columns. Schema and table rows have no parents
   * below their own level.
   */
  lemma CatalogRoots(d: seq<string>)
    requires |d| == 27
    ensures forall i: nat :: IsSchemaRow(i) ==>
      Catalogue(d)[i].kind == "schema" && Catalogue(d)[i].schema == "" && Catalogue(d)[i].schemaDescription == ""
      && Catalogue(d)[i].table == "" && Catalogue(d)[i].tableDescription == ""
    ensures forall i: nat :: IsTableRow(i) ==>
      Catalogue(d)[i].kind == "tabella" && Catalogue(d)[i].table == "" && Catalogue(d)[i].tableDescription == ""
  {
  }

  /** Every row below a schema row carries that schema's name and description. */
  lemma CatalogSchemaColumns(d: seq<string>)
    requires |d| == 27
    ensures forall i :: 0 <= i < 27 && !IsSchemaRow(i) ==>
      Catalogue(d)[i].schema == Catalogue(d)[SchemaRowOf(i)].name
      && Catalogue(d)[i].schemaDescription == Catalogue(d)[SchemaRowOf(i)].description
  {
    var rows := Catalogue(d);
    assert rows[0].name == AnagraficaClienti && rows[12].name == AnagraficaProdotti && rows[21].name == AnagraficaFiliali;
    forall i | 1 <= i < 12
      ensures rows[i].schema == AnagraficaClienti && rows[i].schemaDescription == d[0]
    {
    }
    forall i | 13 <= i < 21
      ensures rows[i].schema == AnagraficaProdotti && rows[i].schemaDescription == d[12]
    {
    }
    forall i | 22 <= i < 27
      ensures rows[i].schema == AnagraficaFiliali && rows[i].schemaDescription == d[21]
    {
    }
  }

  /** The rows that are neither schemas nor tables are columns. */
  lemma CatalogColumnKinds(d: seq<string>)
    requires |d| == 27
    ensures forall i :: 0 <= i < 27 && !IsSchemaRow(i) && !IsTableRow(i) ==> Catalogue(d)[i].kind == "colonna"
  {
  }

  /** Every column row carries its table's name and description. */
  lemma CatalogTableColumns(d: seq<string>)
    requires |d| == 27
    ensures forall i :: 0 <= i < 27 && !IsSchemaRow(i) && !IsTableRow(i) ==>
      Catalogue(d)[i].table == Catalogue(d)[TableRowOf(i)].name
      && Catalogue(d)[i].tableDescription == Catalogue(d)[TableRowOf(i)].description
  {
    var rows := Catalogue(d);
    forall i | 2 <= i < 12
      ensures rows[i].table == rows[1].name && rows[i].tableDescription == rows[1].description
    {
    }
    forall i | 14 <= i < 21
      ensures rows[i].table == rows[13].name && rows[i].tableDescription == rows[13].description
    {
    }
    forall i | 23 <= i < 27
      ensures rows[i].table == rows[22].name && rows[i].tableDescription == rows[22].description
    {
    }
    GroupedTableColumns(rows);
  }

  /** Column rows that repeat their group's table row, group by group, repeat TableRowOf's row. */
  lemma GroupedTableColumns(rows: seq<AssetRow>)
    requires |rows| == 27
    requires forall i :: 2 <= i < 12 ==> rows[i].table == rows[1].name && rows[i].tableDescription == rows[1].description
    requires forall i :: 14 <= i < 21 ==> rows[i].table == rows[13].name && rows[i].tableDescription == rows[13].description
    requires forall i :: 23 <= i < 27 ==> rows[i].table == rows[22].name && rows[i].tableDescription == rows[22].description
    ensures forall i :: 0 <= i < 27 && !IsSchemaRow(i) && !IsTableRow(i) ==>
      rows[i].table == rows[TableRowOf(i)].name && rows[i].tableDescription == rows[TableRowOf(i)].description
  {
  }

  /** Every catalogue row has the shape of its kind. */
  lemma CatalogShapes(d: seq<string>)
    requires |d| == 27
    ensures forall i :: 0 <= i < 27 ==> WellShaped(Catalogue(d)[i])
  {
    CatalogRoots(d);
    CatalogSchemaColumns(d);
    CatalogColumnKinds(d);
    CatalogTableColumns(d);
    var rows := Catalogue(d);
    assert rows[0].name != "" && rows[12].name != "" && rows[21].name != "";
    assert rows[1].name != "" && rows[13].name != "" && rows[22].name != "";
    LayoutShapes(rows);
  }

  /** Rows laid out in schema, table and column groups have the shape of their kind. */
  lemma LayoutShapes(rows: seq<AssetRow>)
    requires |rows| == 27
    requires forall i: nat :: IsSchemaRow(i) ==>
      rows[i].kind == "schema" && rows[i].schema == "" && rows[i].schemaDescription == ""
      && rows[i].table == "" && rows[i].tableDescription == "" && rows[i].name != ""
    requires forall i: nat :: IsTableRow(i) ==>
      rows[i].kind == "tabella" && rows[i].table == "" && rows[i].tableDescription == "" && rows[i].name != ""
    requires forall i :: 0 <= i < 27 && !IsSchemaRow(i) ==> rows[i].schema == rows[SchemaRowOf(i)].name
    requires forall i :: 0 <= i < 27 && !IsSchemaRow(i) && !IsTableRow(i) ==>
      rows[i].kind == "colonna" && rows[i].table == rows[TableRowOf(i)].name
    ensures forall i :: 0 <= i < 27 ==> WellShaped(rows[i])
  {
    forall i | 0 <= i < 27
      ensures WellShaped(rows[i])
    {
      if IsSchemaRow(i) {
      } else if IsTableRow(i) {
        assert IsSchemaRow(SchemaRowOf(i));
      } else {
        assert IsSchemaRow(SchemaRowOf(i)) && IsTableRow(TableRowOf(i));
      }
    }
  }

  /**
   * Every schema a catalogue row names is a schema row, and the schema
   * description the row carries is that schema's own.
   */
  lemma CatalogSchemaParents(d: seq<string>)
    requires |d| == 27
    ensures forall i :: 0 <= i < 27 && Catalogue(d)[i].schema != "" ==>
      exists j :: 0 <= j < 27 && SchemaOf(Catalogue(d), i, j)
  {
    CatalogRoots(d);
    CatalogSchemaColumns(d);
    var rows := Catalogue(d);
    forall i | 0 <= i < 27 && rows[i].schema != ""
      ensures exists j :: 0 <= j < 27 && SchemaOf(rows, i, j)
    {
      assert !IsSchemaRow(i);
      assert SchemaOf(rows, i, SchemaRowOf(i));
    }
  }

  /**
   * Every table a catalogue row names is a table row of the same schema,
   * and the table description the row carries is that table's own.
   */
  lemma CatalogTableParents(d: seq<string>)
    requires |d| == 27
    ensures forall i :: 0 <= i < 27 && Catalogue(d)[i].table != "" ==>
      exists j :: 0 <= j < 27 && TableOf(Catalogue(d), i, j)
  {
    CatalogRoots(d);
    CatalogSchemaColumns(d);
    CatalogColumnKinds(d);
    CatalogTableColumns(d);
    var rows := Catalogue(d);
    forall i | 0 <= i < 27 && rows[i].table != ""
      ensures exists j :: 0 <= j < 27 && TableOf(rows, i, j)
    {
      assert !IsSchemaRow(i) && !IsTableRow(i);
      assert TableOf(rows, i, TableRowOf(i));
    }
  }
}
