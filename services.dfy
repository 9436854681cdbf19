/**
 * The interaction service: ingestion of CSV rows and JSON payloads, single
 * creation, search by criteria and lookup by id, over an in-memory repository.
 */
module Services {
  import opened Wrappers
  import opened InteractionTypes
  import opened Domain
  import opened Mappers
  import opened Decimal

  /** The exceptions the service throws. */
  datatype ServiceError =
    | IllegalArgument(message: string)
    | NullPointer(message: string)
    | NotFound(message: string)

  const EmptyCsvFileMessage := "CSV file must not be empty"
  const UnreadableCsvMessage := "Unable to read CSV file"
  const UnparsableCsvPrefix := "Failed to parse CSV file: "
  const NoCsvRowsMessage := "CSV file is empty or missing required header"
  const NullEntryMessage := "Interaction entry must not be null"
  const ProductIdRequired := "productId is required"
  const CustomerIdRequired := "customerId is required"
  const InteractionTypeRequired := "interactionType is required"
  const EmptyJsonMessage := "JSON payload must not be empty"
  const DtoRequiredMessage := "InteractionLogDto is required"
  const SearchCustomerIdRequired := "customerId is required for search"
  const IdRequiredMessage := "id is required"

  /** The message of a failed lookup names the id in decimal. */
  function NotFoundMessage(id: int): (m: string)
    ensures |m| > 30 && m[..20] == "Interaction with id " && m[|m| - 10..] == " not found"
    ensures DecimalValue(m[20..|m| - 10]) == id
  {
    var m := "Interaction with id " + IntToString(id) + " not found";
    assert m[20..|m| - 10] == IntToString(id);
    m
  }

  /**
   * An uploaded CSV file as far as the service sees it: missing, empty, not
   * readable, rejected by the CSV parser with a reason, or parsed into rows
   * (a row may be null).
   */
  datatype CsvUpload =
    | NullFile
    | EmptyFile
    | Unreadable
    | Unparsable(reason: string)
    | Parsed(rows: seq<Option<InteractionLogDto>>)

  // ---------------------------------------------------------------- validation

  /** The exception the row check throws for one row, if any: null rows first, then each required field in turn. */
  function RowViolation(row: Option<InteractionLogDto>): (v: Option<ServiceError>)
    ensures v.None? <==> row.Some? && row.value.productId.Some? && row.value.customerId.Some?
                         && row.value.interactionType.Some?
    ensures row.None? ==> v == Some(IllegalArgument(NullEntryMessage))
    ensures row.Some? && v.Some? ==> v.value.NullPointer?
    ensures row.Some? && row.value.productId.None? ==> v == Some(NullPointer(ProductIdRequired))
    ensures row.Some? && row.value.productId.Some? && row.value.customerId.None? ==>
      v == Some(NullPointer(CustomerIdRequired))
    ensures row.Some? && row.value.productId.Some? && row.value.customerId.Some? && row.value.interactionType.None? ==>
      v == Some(NullPointer(InteractionTypeRequired))
  {
    match row
    case None => Some(IllegalArgument(NullEntryMessage))
    case Some(dto) =>
      if dto.productId.None? then Some(NullPointer(ProductIdRequired))
      else if dto.customerId.None? then Some(NullPointer(CustomerIdRequired))
      else if dto.interactionType.None? then Some(NullPointer(InteractionTypeRequired))
      else None
  }

  /** The rows, checked in order: the first row's exception, or all rows once none throws. */
  function Validated(rows: seq<Option<InteractionLogDto>>): (r: Result<seq<InteractionLogDto>, ServiceError>)
    ensures r.Failure? ==> exists i :: 0 <= i < |rows| && RowViolation(rows[i]) == Some(r.error)
    ensures r.Success? ==> |r.value| == |rows|
  {
    if rows == [] then Success([])
    else match RowViolation(rows[0])
      case Some(v) => Failure(v)
      case None =>
        match Validated(rows[1..])
        case Failure(v) => Failure(v)
        case Success(rest) => Success([rows[0].value] + rest)
  }

  /** Every row passes exactly when the check succeeds, and then it yields the rows themselves. */
  lemma {:induction false} ValidatedIff(rows: seq<Option<InteractionLogDto>>)
    ensures Validated(rows).Success? <==> forall i :: 0 <= i < |rows| ==> RowViolation(rows[i]).None?
    ensures Validated(rows).Success? ==>
      |Validated(rows).value| == |rows| && forall i :: 0 <= i < |rows| ==> Some(Validated(rows).value[i]) == rows[i]
  {
    if rows != [] {
      ValidatedIff(rows[1..]);
      if RowViolation(rows[0]).None? && Validated(rows[1..]).Success? {
        forall i | 0 <= i < |rows|
          ensures Some(Validated(rows).value[i]) == rows[i]
        {
          if i > 0 {
            assert rows[1..][i - 1] == rows[i];
          }
        }
      }
      if !Validated(rows).Success? {
        if RowViolation(rows[0]).None? {
          var j :| 0 <= j < |rows[1..]| && RowViolation(rows[1..][j]).Some?;
          assert RowViolation(rows[j + 1]).Some?;
        }
      }
    }
  }

  /** The check fails with the exception of the first row that has one. */
  lemma {:induction false} ValidatedFirstViolation(rows: seq<Option<InteractionLogDto>>, i: nat)
    requires i < |rows|
    requires forall j :: 0 <= j < i ==> RowViolation(rows[j]).None?
    requires RowViolation(rows[i]).Some?
    ensures Validated(rows) == Failure(RowViolation(rows[i]).value)
  {
    if i > 0 {
      assert forall j :: 0 <= j < i - 1 ==> rows[1..][j] == rows[j + 1];
      ValidatedFirstViolation(rows[1..], i - 1);
    }
  }

  /** Checks every row in order and reports the first exception, as the row loop throws it. */
  method ValidateDtos(dtos: seq<Option<InteractionLogDto>>) returns (violation: Option<ServiceError>)
    ensures violation.None? <==> Validated(dtos).Success?
    ensures violation.Some? ==> Validated(dtos) == Failure(violation.value)
  {
    var i := 0;
    while i < |dtos|
      invariant 0 <= i <= |dtos|
      invariant forall j :: 0 <= j < i ==> RowViolation(dtos[j]).None?
    {
      match dtos[i] {
        case None =>
          violation := Some(IllegalArgument(NullEntryMessage));
        case Some(dto) =>
          if dto.productId.None? {
            violation := Some(NullPointer(ProductIdRequired));
          } else if dto.customerId.None? {
            violation := Some(NullPointer(CustomerIdRequired));
          } else if dto.interactionType.None? {
            violation := Some(NullPointer(InteractionTypeRequired));
          } else {
            violation := None;
          }
      }
      if violation.Some? {
        ValidatedFirstViolation(dtos, i);
        return;
      }
      i := i + 1;
    }
    ValidatedIff(dtos);
    violation := None;
  }

  /**
   * The rows a CSV upload ingests, or the exception it is rejected with: a
   * missing or empty file, an unreadable one, a parser failure with its
   * reason, no rows, or the first failing row.
   */
  function CsvRows(upload: CsvUpload): (r: Result<seq<InteractionLogDto>, ServiceError>)
    ensures (upload.NullFile? || upload.EmptyFile?) ==> r == Failure(IllegalArgument(EmptyCsvFileMessage))
    ensures upload.Unreadable? ==> r == Failure(IllegalArgument(UnreadableCsvMessage))
    ensures upload.Unparsable? ==> r == Failure(IllegalArgument(UnparsableCsvPrefix + upload.reason))
    ensures upload.Parsed? && |upload.rows| == 0 ==> r == Failure(IllegalArgument(NoCsvRowsMessage))
    ensures upload.Parsed? && |upload.rows| > 0 ==> r == Validated(upload.rows)
    ensures r.Success? ==> upload.Parsed? && |r.value| == |upload.rows| > 0
  {
    match upload
    case NullFile => Failure(IllegalArgument(EmptyCsvFileMessage))
    case EmptyFile => Failure(IllegalArgument(EmptyCsvFileMessage))
    case Unreadable => Failure(IllegalArgument(UnreadableCsvMessage))
    case Unparsable(reason) => Failure(IllegalArgument(UnparsableCsvPrefix + reason))
    case Parsed(rows) =>
      if |rows| == 0 then Failure(IllegalArgument(NoCsvRowsMessage)) else Validated(rows)
  }

  /** A parsed upload is accepted exactly when it has rows and every row is non-null with its three required fields. */
  lemma CsvAcceptedIff(rows: seq<Option<InteractionLogDto>>)
    ensures CsvRows(Parsed(rows)).Success? <==>
      |rows| > 0 && forall i :: 0 <= i < |rows| ==>
        rows[i].Some? && rows[i].value.productId.Some? && rows[i].value.customerId.Some?
        && rows[i].value.interactionType.Some?
    ensures CsvRows(Parsed(rows)).Success? ==> |CsvRows(Parsed(rows)).value| == |rows|
  {
    ValidatedIff(rows);
  }

  // ---------------------------------------------------------------- search

  /** One restriction of a search specification. */
  datatype Clause =
    | CustomerIdEquals(customerId: int)
    | ProductIdEquals(productId: int)
    | InteractionTypeEquals(interactionType: InteractionType)
    | DateOnOrAfter(start: int)
    | DateOnOrBefore(end: int)

  /** Whether a stored row meets a clause; a null column meets no comparison. */
  predicate Holds(clause: Clause, e: InteractionLog) {
    match clause
    case CustomerIdEquals(v) => e.customerId == Some(v)
    case ProductIdEquals(v) => e.productId == Some(v)
    case InteractionTypeEquals(t) => e.interactionType == Some(t)
    case DateOnOrAfter(start) => e.interactionDate.Some? && start <= e.interactionDate.value
    case DateOnOrBefore(end) => e.interactionDate.Some? && e.interactionDate.value <= end
  }

  /** A specification is the conjunction of its clauses. */
  predicate Satisfies(spec: seq<Clause>, e: InteractionLog) {
    forall i :: 0 <= i < |spec| ==> Holds(spec[i], e)
  }

  /**
   * What a search is meant to find: the same customer, the same product and
   * type where those filters are given, and an interaction date within the
   * given bounds, both inclusive.
   */
  predicate Matches(criteria: InteractionSearchCriteria, e: InteractionLog)
    requires criteria.customerId.Some?
  {
    && e.customerId == criteria.customerId
    && (criteria.productId.Some? ==> e.productId == criteria.productId)
    && (criteria.interactionType.Some? ==> e.interactionType == criteria.interactionType)
    && (criteria.startDate.Some? ==> e.interactionDate.Some? && criteria.startDate.value <= e.interactionDate.value)
    && (criteria.endDate.Some? ==> e.interactionDate.Some? && e.interactionDate.value <= criteria.endDate.value)
  }

  /** Adding a clause to a specification narrows it by exactly that clause. */
  lemma SatisfiesAppend(spec: seq<Clause>, clause: Clause)
    ensures forall e :: Satisfies(spec + [clause], e) <==> Satisfies(spec, e) && Holds(clause, e)
  {
    forall e ensures Satisfies(spec + [clause], e) <==> Satisfies(spec, e) && Holds(clause, e) {
      SatisfiesAppendAt(spec, clause, e);
    }
  }

  lemma SatisfiesAppendAt(spec: seq<Clause>, clause: Clause, e: InteractionLog)
    ensures Satisfies(spec + [clause], e) <==> Satisfies(spec, e) && Holds(clause, e)
  {
    if Satisfies(spec, e) && Holds(clause, e) {
      forall i | 0 <= i < |spec + [clause]|
        ensures Holds((spec + [clause])[i], e)
      {
        if i < |spec| { assert (spec + [clause])[i] == spec[i]; }
      }
    }
    if Satisfies(spec + [clause], e) {
      forall i | 0 <= i < |spec|
        ensures Holds(spec[i], e)
      {
        assert (spec + [clause])[i] == spec[i];
      }
      assert (spec + [clause])[|spec|] == clause;
    }
  }

  /** Builds the specification clause by clause: customer first, then each filter that is given. */
  method BuildSpecification(criteria: InteractionSearchCriteria) returns (spec: seq<Clause>)
    requires criteria.customerId.Some?
    ensures forall e :: Satisfies(spec, e) <==> Matches(criteria, e)
  {
    spec := [CustomerIdEquals(criteria.customerId.value)];
    SatisfiesAppend([], CustomerIdEquals(criteria.customerId.value));
    assert [] + spec == spec;
    if criteria.productId.Some? {
      SatisfiesAppend(spec, ProductIdEquals(criteria.productId.value));
      spec := spec + [ProductIdEquals(criteria.productId.value)];
    }
    if criteria.interactionType.Some? {
      SatisfiesAppend(spec, InteractionTypeEquals(criteria.interactionType.value));
      spec := spec + [InteractionTypeEquals(criteria.interactionType.value)];
    }
    var start := criteria.startDate;
    var end := criteria.endDate;
    if start.Some? {
      SatisfiesAppend(spec, DateOnOrAfter(start.value));
      spec := spec + [DateOnOrAfter(start.value)];
    }
    if end.Some? {
      SatisfiesAppend(spec, DateOnOrBefore(end.value));
      spec := spec + [DateOnOrBefore(end.value)];
    }
  }

  /** The rows that satisfy a specification, in stored order. */
  function FilterBy(rows: seq<InteractionLog>, spec: seq<Clause>): (found: seq<InteractionLog>)
    ensures forall e :: e in found ==> e in rows && Satisfies(spec, e)
    ensures forall e :: e in rows && Satisfies(spec, e) ==> e in found
  {
    if rows == [] then []
    else if Satisfies(spec, rows[0]) then [rows[0]] + FilterBy(rows[1..], spec)
    else FilterBy(rows[1..], spec)
  }

  /** The rows that match criteria, in stored order. */
  function Select(rows: seq<InteractionLog>, criteria: InteractionSearchCriteria): (found: seq<InteractionLog>)
    requires criteria.customerId.Some?
    ensures forall e :: e in found ==> e in rows && Matches(criteria, e)
    ensures forall e :: e in rows && Matches(criteria, e) ==> e in found
  {
    if rows == [] then []
    else if Matches(criteria, rows[0]) then [rows[0]] + Select(rows[1..], criteria)
    else Select(rows[1..], criteria)
  }

  /** Filtering by a specification equivalent to the criteria selects exactly the matching rows, in order. */
  lemma {:induction false} FilterBySelects(rows: seq<InteractionLog>, spec: seq<Clause>, criteria: InteractionSearchCriteria)
    requires criteria.customerId.Some?
    requires forall e :: Satisfies(spec, e) <==> Matches(criteria, e)
    ensures FilterBy(rows, spec) == Select(rows, criteria)
  {
    if rows != [] {
      FilterBySelects(rows[1..], spec, criteria);
    }
  }

  /** The first stored row with the given id, if any. */
  function FirstWithId(rows: seq<InteractionLog>, id: int): (r: Option<InteractionLog>)
    ensures r.Some? ==> r.value in rows && r.value.id == Some(id)
    ensures r.None? <==> forall e :: e in rows ==> e.id != Some(id)
  {
    if rows == [] then None
    else if rows[0].id == Some(id) then Some(rows[0])
    else FirstWithId(rows[1..], id)
  }

  // ---------------------------------------------------------------- state

  /** The stored interaction logs, in the order they were saved. */
  class InteractionLogRepository {
    var rows: seq<InteractionLog>

    constructor ()
      ensures rows == []
    {
      rows := [];
    }

    /** Stores one entity and returns it. */
    method Save(e: InteractionLog) returns (saved: InteractionLog)
      modifies this
      ensures rows == old(rows) + [e] && saved == e
    {
      rows := rows + [e];
      saved := e;
    }

    /** Stores a batch of entities, in order. */
    method SaveAll(es: seq<InteractionLog>)
      modifies this
      ensures rows == old(rows) + es
    {
      rows := rows + es;
    }

    /** The stored rows that satisfy the specification, in stored order, as `FilterBy` states. */
    function FindAll(spec: seq<Clause>): (found: seq<InteractionLog>)
      reads this
      ensures found == FilterBy(rows, spec)
    {
      FilterBy(rows, spec)
    }

    /** The first stored row with the id, if there is one, as `FirstWithId` states. */
    function FindById(id: int): (found: Option<InteractionLog>)
      reads this
      ensures found == FirstWithId(rows, id)
    {
      FirstWithId(rows, id)
    }
  }

  class InteractionServiceImpl {
    const repository: InteractionLogRepository

    constructor (repository: InteractionLogRepository)
      ensures this.repository == repository
    {
      this.repository := repository;
    }

    /** Ingests the rows of a CSV upload in one batch, or stores nothing and throws. */
    method IngestCsv(upload: CsvUpload) returns (r: Result<int, ServiceError>)
      modifies repository
      ensures CsvRows(upload).Failure? ==>
        r == Failure(CsvRows(upload).error) && repository.rows == old(repository.rows)
      ensures CsvRows(upload).Success? ==>
        && r == Success(|CsvRows(upload).value|)
        && repository.rows == old(repository.rows) + ToEntities(CsvRows(upload).value)
    {
      match upload {
        case NullFile => return Failure(IllegalArgument(EmptyCsvFileMessage));
        case EmptyFile => return Failure(IllegalArgument(EmptyCsvFileMessage));
        case Unreadable => return Failure(IllegalArgument(UnreadableCsvMessage));
        case Unparsable(reason) => return Failure(IllegalArgument(UnparsableCsvPrefix + reason));
        case Parsed(rows) =>
          if |rows| == 0 {
            return Failure(IllegalArgument(NoCsvRowsMessage));
          }
          var violation := ValidateDtos(rows);
          if violation.Some? {
            return Failure(violation.value);
          }
          // Every row is now known to be non-null.
          var entities := ToEntities(Validated(rows).value);
          repository.SaveAll(entities);
          return Success(|entities|);
      }
    }

    /** Ingests a JSON payload in one batch, without checking fields, or stores nothing and throws. */
    method IngestJson(payload: Option<seq<InteractionLogDto>>) returns (r: Result<int, ServiceError>)
      modifies repository
      ensures (payload.None? || |payload.value| == 0) ==>
        r == Failure(IllegalArgument(EmptyJsonMessage)) && repository.rows == old(repository.rows)
      ensures payload.Some? && |payload.value| > 0 ==>
        r == Success(|payload.value|) && repository.rows == old(repository.rows) + ToEntities(payload.value)
    {
      if payload.None? || |payload.value| == 0 {
        return Failure(IllegalArgument(EmptyJsonMessage));
      }
      var entities := ToEntities(payload.value);
      repository.SaveAll(entities);
      return Success(|entities|);
    }

    /** Stores one interaction and returns the stored entity as a transfer object. */
    method Create(dto: Option<InteractionLogDto>) returns (r: Result<InteractionLogDto, ServiceError>)
      modifies repository
      ensures dto.None? ==> r == Failure(IllegalArgument(DtoRequiredMessage)) && repository.rows == old(repository.rows)
      ensures dto.Some? ==>
        && repository.rows == old(repository.rows) + [ToEntity(dto.value)]
        && r == Success(ToDto(repository.rows[|repository.rows| - 1]))
        && r == Success(dto.value)
    {
      if dto.None? {
        return Failure(IllegalArgument(DtoRequiredMessage));
      }
      var entity := ToEntity(dto.value);
      var saved := repository.Save(entity);
      return Success(ToDto(saved));
    }

    /** Finds the stored interactions that match the criteria; the customer id is required. */
    method Search(criteria: Option<InteractionSearchCriteria>) returns (r: Result<seq<InteractionLogDto>, ServiceError>)
      ensures (criteria.None? || criteria.value.customerId.None?) ==>
        r == Failure(IllegalArgument(SearchCustomerIdRequired))
      ensures criteria.Some? && criteria.value.customerId.Some? ==>
        r == Success(ToDtos(Select(repository.rows, criteria.value)))
    {
      if criteria.None? || criteria.value.customerId.None? {
        return Failure(IllegalArgument(SearchCustomerIdRequired));
      }
      var spec := BuildSpecification(criteria.value);
      FilterBySelects(repository.rows, spec, criteria.value);
      return Success(ToDtos(repository.FindAll(spec)));
    }

    /** Looks up one interaction by id. */
    method FindById(id: Option<int>) returns (r: Result<InteractionLogDto, ServiceError>)
      ensures id.None? ==> r == Failure(IllegalArgument(IdRequiredMessage))
      ensures id.Some? && (forall e :: e in repository.rows ==> e.id != id) ==>
        r == Failure(NotFound(NotFoundMessage(id.value)))
      ensures id.Some? && r.Success? ==>
        exists e :: e in repository.rows && e.id == id && r.value == ToDto(e)
      ensures id.Some? && r.Success? ==> r.value.id == id
      ensures id.Some? && FirstWithId(repository.rows, id.value).Some? ==>
        r == Success(ToDto(FirstWithId(repository.rows, id.value).value))
      ensures id.Some? ==> (r.Success? <==> exists e :: e in repository.rows && e.id == id)
    {
      if id.None? {
        return Failure(IllegalArgument(IdRequiredMessage));
      }
      match repository.FindById(id.value) {
        case None => return Failure(NotFound(NotFoundMessage(id.value)));
        case Some(entity) => return Success(ToDto(entity));
      }
    }
  }
}
