/**
 * The order index provider: a fixed per-field indexing policy table, the policy
 * lookup over it, and the guarded submissions the provider makes to the index engine.
 * The engine itself is not modelled; every call it receives is appended to a log.
 */
module ExamineProviders {
  import opened Core

  /** How the index engine tokenises a field. */
  datatype FieldIndexType = Analyzed | NotAnalyzed

  /** One entry of the indexing policy table. */
  datatype StaticField = StaticField(
    name: string,
    indexType: FieldIndexType,
    enableSorting: bool,
    fieldType: string)  // a type hint for sorting and ranges, or empty

  /** The policy of every field the order index knows about. */
  const IndexFieldPolicies: seq<StaticField> := [
    StaticField("orderKey", Analyzed, false, ""),
    StaticField("invoiceKey", Analyzed, false, ""),
    StaticField("orderNumberPrefix", NotAnalyzed, true, ""),
    StaticField("orderNumber", Analyzed, true, ""),
    StaticField("prefixedOrderNumber", Analyzed, false, ""),
    StaticField("orderDate", Analyzed, true, "DATETIME"),
    StaticField("orderStatusKey", Analyzed, false, ""),
    StaticField("versionKey", NotAnalyzed, false, ""),
    StaticField("exported", NotAnalyzed, false, ""),
    StaticField("total", Analyzed, true, "DOUBLE"),
    StaticField("orderStatus", NotAnalyzed, false, ""),
    StaticField("orderItems", NotAnalyzed, false, ""),
    StaticField("createDate", NotAnalyzed, false, "DATETIME"),
    StaticField("updateDate", NotAnalyzed, false, "DATETIME"),
    StaticField("allDocs", Analyzed, false, "")
  ]

  /** The table entries with that name, in table order. */
  function FieldsNamed(fields: seq<StaticField>, name: string): (r: seq<StaticField>)
    ensures |r| <= |fields|
    ensures forall i :: 0 <= i < |r| ==> r[i].name == name
  {
    if fields == [] then []
    else (if fields[0].name == name then [fields[0]] else []) + FieldsNamed(fields[1..], name)
  }

  /** No two entries of the table share a field name. */
  ghost predicate NamesDistinct(fields: seq<StaticField>) {
    forall i, j :: 0 <= i < j < |fields| ==> fields[i].name != fields[j].name
  }

  lemma {:induction false} FieldsNamedAbsent(fields: seq<StaticField>, name: string)
    requires forall k :: 0 <= k < |fields| ==> fields[k].name != name
    ensures FieldsNamed(fields, name) == []
  {
    if fields != [] {
      FieldsNamedAbsent(fields[1..], name);
    }
  }

  lemma {:induction false} FieldsNamedUnique(fields: seq<StaticField>, name: string, k: nat)
    requires NamesDistinct(fields)
    requires k < |fields| && fields[k].name == name
    ensures FieldsNamed(fields, name) == [fields[k]]
  {
    if k == 0 {
      FieldsNamedAbsent(fields[1..], name);
    } else {
      FieldsNamedUnique(fields[1..], name, k - 1);
    }
  }

  /** `Single()`: the one element of a one-element sequence, a fault otherwise. */
  function Single<T>(xs: seq<T>): (r: Result<T>)
    ensures r.Success? <==> |xs| == 1
    ensures r.Success? ==> r.value == xs[0]
  {
    if |xs| == 1 then Success(xs[0]) else Failure(InvalidOperation)
  }

  /** The policy lookup over any table: the index type of the entry named `name`, `Analyzed` when there is none. */
  function PolicyLookup(fields: seq<StaticField>, name: string): (r: Result<FieldIndexType>)
    ensures r.Failure? <==> |FieldsNamed(fields, name)| > 1
    ensures r.Failure? ==> r.fault == InvalidOperation
    ensures FieldsNamed(fields, name) == [] ==> r == Success(Analyzed)
    ensures |FieldsNamed(fields, name)| == 1 ==> r == Success(FieldsNamed(fields, name)[0].indexType)
  {
    var def := FieldsNamed(fields, name);
    if |def| == 0 then Success(Analyzed)
    else match Single(def)
      case Success(f) => Success(f.indexType)
      case Failure(e) => Failure(e)
  }

  /** Over a table without duplicate names the lookup never faults and answers as promised. */
  lemma PolicyLookupSpec(fields: seq<StaticField>, name: string)
    requires NamesDistinct(fields)
    ensures PolicyLookup(fields, name).Success?
    ensures forall k :: 0 <= k < |fields| && fields[k].name == name ==>
      PolicyLookup(fields, name) == Success(fields[k].indexType)
    ensures (forall k :: 0 <= k < |fields| ==> fields[k].name != name) ==>
      PolicyLookup(fields, name) == Success(Analyzed)
  {
    if k :| 0 <= k < |fields| && fields[k].name == name {
      FieldsNamedUnique(fields, name, k);
      forall j | 0 <= j < |fields| && fields[j].name == name ensures j == k { }
    } else {
      FieldsNamedAbsent(fields, name);
    }
  }

  lemma {:induction false} FieldsNamedHas(fields: seq<StaticField>, name: string, k: nat)
    requires k < |fields| && fields[k].name == name
    ensures |FieldsNamed(fields, name)| >= 1
  {
    if k > 0 {
      FieldsNamedHas(fields[1..], name, k - 1);
    }
  }

  lemma {:induction false} FieldsNamedHasTwo(fields: seq<StaticField>, name: string, i: nat, j: nat)
    requires i < j < |fields| && fields[i].name == name && fields[j].name == name
    ensures |FieldsNamed(fields, name)| >= 2
  {
    if i == 0 {
      FieldsNamedHas(fields[1..], name, j - 1);
    } else {
      FieldsNamedHasTwo(fields[1..], name, i - 1, j - 1);
    }
  }

  /** A table that lists some name twice makes the lookup of that name fault in `Single()`. */
  lemma DuplicateNameFaults(fields: seq<StaticField>)
    requires !NamesDistinct(fields)
    ensures exists name :: PolicyLookup(fields, name) == Failure(InvalidOperation)
  {
    var i, j :| 0 <= i < j < |fields| && fields[i].name == fields[j].name;
    FieldsNamedHasTwo(fields, fields[i].name, i, j);
    assert PolicyLookup(fields, fields[i].name) == Failure(InvalidOperation);
  }

  /** Length, first and last letter: enough to tell the fifteen table names apart. */
  ghost function Signature(s: string): (int, char, char)
  {
    if s == [] then (0, ' ', ' ') else (|s|, s[0], s[|s| - 1])
  }

  lemma PolicyNamesDistinct()
    ensures NamesDistinct(IndexFieldPolicies)
  {
    var sigs := seq(|IndexFieldPolicies|, k requires 0 <= k < |IndexFieldPolicies| => Signature(IndexFieldPolicies[k].name));
    assert sigs == [(8, 'o', 'y'), (10, 'i', 'y'), (17, 'o', 'x'), (11, 'o', 'r'), (19, 'p', 'r'), (9, 'o', 'e'),
                    (14, 'o', 'y'), (10, 'v', 'y'), (8, 'e', 'd'), (5, 't', 'l'), (11, 'o', 's'), (10, 'o', 's'),
                    (10, 'c', 'e'), (10, 'u', 'e'), (7, 'a', 's')];
    forall i, j | 0 <= i < j < |IndexFieldPolicies|
      ensures IndexFieldPolicies[i].name != IndexFieldPolicies[j].name
    {
      assert sigs[i] != sigs[j];
    }
  }

  /** The indexing policy of a field: the table's entry, `Analyzed` for an unknown field. */
  function GetPolicy(fieldName: string): (r: Result<FieldIndexType>)
    ensures r.Success?
    ensures forall k :: 0 <= k < |IndexFieldPolicies| && IndexFieldPolicies[k].name == fieldName ==>
      r == Success(IndexFieldPolicies[k].indexType)
    ensures (forall k :: 0 <= k < |IndexFieldPolicies| ==> IndexFieldPolicies[k].name != fieldName) ==>
      r == Success(Analyzed)
  {
    PolicyNamesDistinct();
    PolicyLookupSpec(IndexFieldPolicies, fieldName);
    PolicyLookup(IndexFieldPolicies, fieldName)
  }

  /** "total" is analysed, sortable and typed DOUBLE. */
  lemma TotalPolicy()
    ensures FieldsNamed(IndexFieldPolicies, "total") == [StaticField("total", Analyzed, true, "DOUBLE")]
    ensures GetPolicy("total") == Success(Analyzed)
  {
    PolicyNamesDistinct();
    FieldsNamedUnique(IndexFieldPolicies, "total", 9);
  }

  /** "orderDate" is analysed, sortable and typed DATETIME. */
  lemma OrderDatePolicy()
    ensures FieldsNamed(IndexFieldPolicies, "orderDate") == [StaticField("orderDate", Analyzed, true, "DATETIME")]
    ensures GetPolicy("orderDate") == Success(Analyzed)
  {
    PolicyNamesDistinct();
    FieldsNamedUnique(IndexFieldPolicies, "orderDate", 5);
  }

  /** "versionKey" is not analysed, not sortable and has no type hint. */
  lemma VersionKeyPolicy()
    ensures FieldsNamed(IndexFieldPolicies, "versionKey") == [StaticField("versionKey", NotAnalyzed, false, "")]
    ensures GetPolicy("versionKey") == Success(NotAnalyzed)
  {
    PolicyNamesDistinct();
    FieldsNamedUnique(IndexFieldPolicies, "versionKey", 7);
  }

  /** A field the table does not list falls back to the analysed policy. */
  lemma UnknownFieldPolicy()
    ensures FieldsNamed(IndexFieldPolicies, "foo") == []
    ensures GetPolicy("foo") == Success(Analyzed)
  {
    forall k | 0 <= k < |IndexFieldPolicies| ensures IndexFieldPolicies[k].name != "foo" {
      assert |IndexFieldPolicies[k].name| != 3;
    }
    FieldsNamedAbsent(IndexFieldPolicies, "foo");
  }

  /** The kinds of document an index holds. */
  datatype IndexType = OrderIndex | InvoiceIndex | OtherIndex  // OtherIndex: any other type name

  /** The index types this provider accepts for a bulk pass: the order type alone. */
  function SupportedTypes(): (r: seq<IndexType>)
    ensures forall t :: t in r <==> t == OrderIndex
  {
    [OrderIndex]
  }

  lemma SupportedTypesAreOrdersOnly(t: IndexType)
    ensures t in SupportedTypes() <==> t == OrderIndex
  {
  }

  datatype Invoice = Invoice(key: Guid, invoiceNumber: nat)
  datatype Order = Order(key: Guid, invoiceKey: Guid, orderNumber: nat, examineId: int)

  /** The root element an entity serialises to, standing for the XML document handed to the engine. */
  datatype IndexNode = InvoiceNode(invoice: Invoice) | OrderNode(order: Order)

  /** One call the provider makes into the index engine. */
  datatype IndexCall =
    | IndexEnsured(forceOverwrite: bool)
    | NodesAdded(nodes: seq<IndexNode>, indexType: IndexType)
    | NodeDeleted(nodeId: string)

  /** One serialised node per invoice, in order. */
  function InvoiceNodes(invoices: seq<Invoice>): (nodes: seq<IndexNode>)
    ensures |nodes| == |invoices|
    ensures forall i :: 0 <= i < |invoices| ==> nodes[i] == InvoiceNode(invoices[i])
  {
    if invoices == [] then [] else [InvoiceNode(invoices[0])] + InvoiceNodes(invoices[1..])
  }

  /** The engine calls a bulk pass of type `t` makes when the data service holds `invoices`. */
  function IndexAllCalls(t: IndexType, invoices: seq<Invoice>): (r: seq<IndexCall>)
    ensures |r| <= 1
    ensures forall c :: c in r ==> c.NodesAdded? && c.indexType == InvoiceIndex && |c.nodes| == |invoices|
  {
    if t !in SupportedTypes() then []
    else if |invoices| == 0 then []
    else [NodesAdded(InvoiceNodes(invoices), InvoiceIndex)]
  }

  /**
   * A bulk pass submits nothing for an unsupported type or an empty invoice list, and
   * otherwise one batch holding one node per invoice, in order, tagged as invoices.
   */
  lemma IndexAllCallsSpec(t: IndexType, invoices: seq<Invoice>)
    ensures IndexAllCalls(t, invoices) == [] <==> t != OrderIndex || invoices == []
    ensures IndexAllCalls(t, invoices) != [] ==>
      var calls := IndexAllCalls(t, invoices);
      && |calls| == 1 && calls[0].NodesAdded?
      && calls[0].indexType == InvoiceIndex
      && |calls[0].nodes| == |invoices|
      && forall i :: 0 <= i < |invoices| ==> calls[0].nodes[i] == InvoiceNode(invoices[i])
  {
    SupportedTypesAreOrdersOnly(t);
  }

  /** The decimal digit `d` as a character. */
  function DigitChar(d: nat): (c: char)
    requires d < 10
    ensures '0' <= c <= '9' && c as int - '0' as int == d
  {
    ('0' as int + d) as char
  }

  predicate IsDigits(s: string) {
    forall i :: 0 <= i < |s| ==> '0' <= s[i] <= '9'
  }

  /** A natural number in decimal, without leading zeros. */
  function NatToDecimal(n: nat): (s: string)
    ensures |s| > 0 && IsDigits(s)
    ensures s[0] == '0' ==> n == 0
  {
    if n < 10 then [DigitChar(n)] else NatToDecimal(n / 10) + [DigitChar(n % 10)]
  }

  /** The invariant-culture decimal rendering of an integer: a leading '-' for negatives, then the digits. */
  function IntToDecimal(n: int): (s: string)
    ensures |s| > 0 && (s[0] == '-' <==> n < 0)
  {
    if n < 0 then "-" + NatToDecimal(-n) else NatToDecimal(n)
  }

  function DecimalToNat(s: string): nat
    requires IsDigits(s)
  {
    if s == [] then 0 else DecimalToNat(s[..|s| - 1]) * 10 + (s[|s| - 1] as int - '0' as int)
  }

  /** Reads back what `IntToDecimal` writes. */
  function DecimalToInt(s: string): int
    requires |s| > 0
    requires if s[0] == '-' then IsDigits(s[1..]) else IsDigits(s)
  {
    if s[0] == '-' then 0 - DecimalToNat(s[1..]) as int else DecimalToNat(s)
  }

  lemma {:induction false} NatDecimalRoundTrip(n: nat)
    ensures DecimalToNat(NatToDecimal(n)) == n
  {
    if n >= 10 {
      NatDecimalRoundTrip(n / 10);
      var s := NatToDecimal(n);
      assert s[..|s| - 1] == NatToDecimal(n / 10);
    }
  }

  lemma IntDecimalRoundTrip(n: int)
    ensures DecimalToInt(IntToDecimal(n)) == n
  {
    if n < 0 {
      assert IntToDecimal(n)[1..] == NatToDecimal(-n);
      NatDecimalRoundTrip(-n);
    } else {
      NatDecimalRoundTrip(n);
    }
  }

  /** Two orders with different examine ids are deleted under different node ids. */
  lemma NodeIdsDistinct(a: Order, b: Order)
    requires a.examineId != b.examineId
    ensures IntToDecimal(a.examineId) != IntToDecimal(b.examineId)
  {
    IntDecimalRoundTrip(a.examineId);
    IntDecimalRoundTrip(b.examineId);
  }

  class OrderIndexer {
    /** What the invoice data service's `GetAll()` returns. */
    const invoiceData: seq<Invoice>
    /** Every call made into the index engine, in order. */
    ghost var indexCalls: seq<IndexCall>

    constructor (invoiceData: seq<Invoice>)
      ensures this.invoiceData == invoiceData && indexCalls == []
    {
      this.invoiceData := invoiceData;
      indexCalls := [];
    }

    /** The engine's index creation; only the call is recorded. */
    method EnsureIndex(forceOverwrite: bool)
      modifies this`indexCalls
      ensures indexCalls == old(indexCalls) + [IndexEnsured(forceOverwrite)]
    {
      indexCalls := indexCalls + [IndexEnsured(forceOverwrite)];
    }

    /** The engine's batch submission; only the call is recorded. */
    method AddNodesToIndex(nodes: seq<IndexNode>, t: IndexType)
      modifies this`indexCalls
      ensures indexCalls == old(indexCalls) + [NodesAdded(nodes, t)]
    {
      indexCalls := indexCalls + [NodesAdded(nodes, t)];
    }

    /** The engine's removal of one document; only the call is recorded. */
    method DeleteFromIndex(nodeId: string)
      modifies this`indexCalls
      ensures indexCalls == old(indexCalls) + [NodeDeleted(nodeId)]
    {
      indexCalls := indexCalls + [NodeDeleted(nodeId)];
    }

    /** The bulk pass: guarded on the type and on there being any invoices. */
    method PerformIndexAll(t: IndexType)
      modifies this`indexCalls
      ensures indexCalls == old(indexCalls) + IndexAllCalls(t, invoiceData)
      ensures t != OrderIndex || invoiceData == [] ==> indexCalls == old(indexCalls)
    {
      if t !in SupportedTypes() {
        return;
      }
      var invoices := invoiceData;
      if |invoices| == 0 {
        return;
      }
      var nodes := InvoiceNodes(invoices);
      AddNodesToIndex(nodes, InvoiceIndex);
    }

    /** A fresh index first, then the bulk pass for orders. */
    method RebuildIndex()
      modifies this`indexCalls
      ensures indexCalls == old(indexCalls) + [IndexEnsured(true)] + IndexAllCalls(OrderIndex, invoiceData)
    {
      EnsureIndex(true);
      PerformIndexAll(OrderIndex);
    }

    /** Submits exactly one node, the order's, tagged as an order. */
    method AddOrderToIndex(order: Order)
      modifies this`indexCalls
      ensures indexCalls == old(indexCalls) + [NodesAdded([OrderNode(order)], OrderIndex)]
    {
      var nodes := [OrderNode(order)];
      AddNodesToIndex(nodes, OrderIndex);
    }

    /** Deletes exactly the document named by the order's examine id. */
    method DeleteOrderFromIndex(order: Order)
      modifies this`indexCalls
      ensures indexCalls == old(indexCalls) + [NodeDeleted(IntToDecimal(order.examineId))]
    {
      DeleteFromIndex(IntToDecimal(order.examineId));
    }
  }
}
