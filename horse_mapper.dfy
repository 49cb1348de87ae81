/** The backend's conversion of a stored horse into the two transfer objects
    the REST layer returns: the list entry and the detail view. A Java `null`
    is `None`, a thrown `FatalException` is a `Failure`. The owner and horse
    maps are value parameters: the conversions read them and cannot change
    them. */
module HorseMapper {
  import opened Wrappers
  import Decimal

  datatype Sex = Female | Male

  /** A calendar date; the mapper copies it and never looks inside. */
  datatype LocalDate = LocalDate(year: int, month: int, day: int)

  /** The persisted horse entity; `ownerId` refers to an owner by id. */
  datatype Horse = Horse(
    id: Option<int>,
    name: string,
    description: string,
    dateOfBirth: LocalDate,
    sex: Sex,
    ownerId: Option<int>)

  datatype OwnerDto = OwnerDto(
    id: int,
    firstName: string,
    lastName: string,
    email: Option<string>)

  datatype HorseListDto = HorseListDto(
    id: Option<int>,
    name: string,
    description: string,
    dateOfBirth: LocalDate,
    sex: Sex,
    owner: Option<OwnerDto>)

  datatype HorseDetailDto = HorseDetailDto(
    id: Option<int>,
    name: string,
    description: string,
    dateOfBirth: LocalDate,
    sex: Sex,
    owner: Option<OwnerDto>,
    mother: Option<HorseDetailDto>,
    father: Option<HorseDetailDto>)

  datatype FatalException = FatalException(message: string)

  /** `%d` of a `Long` that may be null: Java's formatter writes "null". */
  function FormatNullableId(id: Option<int>): (s: string)
    ensures id.None? <==> s == "null"
  {
    match id
    case None => "null"
    case Some(n) => Decimal.IntToString(n)
  }

  /** A non-null id is written so that it reads back as that id. */
  lemma FormatNullableIdNamesId(n: int)
    ensures Decimal.ParseInt(FormatNullableId(Some(n))) == n
  {
    Decimal.ParseIntOfIntToString(n);
  }

  const MissingOwnerPrefix := "Given owner map does not contain owner of this Horse ("
  const MissingHorsePrefix := "Given horse map does not contain horse with id "

  function MissingOwnerMessage(horseId: Option<int>): string {
    MissingOwnerPrefix + FormatNullableId(horseId) + ")"
  }

  function MissingHorseMessage(horseId: int): string {
    MissingHorsePrefix + Decimal.IntToString(horseId)
  }

  /** The horse names an owner that the given map does not hold. */
  predicate OwnerMissing(horse: Horse, owners: map<int, OwnerDto>) {
    horse.ownerId.Some? && horse.ownerId.value !in owners
  }

  /** `owner` is the owner the horse references: none for a null `ownerId`,
      otherwise the map's entry for it. */
  predicate IsReferencedOwner(horse: Horse, owners: map<int, OwnerDto>, owner: Option<OwnerDto>) {
    match horse.ownerId
    case None => owner.None?
    case Some(k) => k in owners && owner == Some(owners[k])
  }

  /** `dto` carries the horse's scalar fields unchanged and its resolved owner. */
  predicate IsListDtoOf(horse: Horse, owners: map<int, OwnerDto>, dto: HorseListDto) {
    dto.id == horse.id && dto.name == horse.name && dto.description == horse.description &&
    dto.dateOfBirth == horse.dateOfBirth && dto.sex == horse.sex &&
    IsReferencedOwner(horse, owners, dto.owner)
  }

  /** As `IsListDtoOf`, and the parents are exactly the given ones. */
  predicate IsDetailDtoOf(horse: Horse, owners: map<int, OwnerDto>,
                          mother: Option<HorseDetailDto>, father: Option<HorseDetailDto>,
                          dto: HorseDetailDto) {
    dto.id == horse.id && dto.name == horse.name && dto.description == horse.description &&
    dto.dateOfBirth == horse.dateOfBirth && dto.sex == horse.sex &&
    IsReferencedOwner(horse, owners, dto.owner) &&
    dto.mother == mother && dto.father == father
  }

  /** The private `getOwner`: resolves the horse's owner through the map, and
      throws when the referenced owner is absent. */
  function GetOwner(horse: Horse, owners: map<int, OwnerDto>): (r: Result<Option<OwnerDto>, FatalException>)
    ensures r.Failure? <==> OwnerMissing(horse, owners)
    ensures r.Failure? ==> r.error == FatalException(MissingOwnerMessage(horse.id))
    ensures r.Success? ==> IsReferencedOwner(horse, owners, r.value)
  {
    match horse.ownerId
    case None => Success(None)
    case Some(k) =>
      if k !in owners then Failure(FatalException(MissingOwnerMessage(horse.id)))
      else Success(Some(owners[k]))
  }

  /** `entityToListDto`: null maps to null without a lookup; otherwise the
      scalar fields are copied and the owner is resolved. */
  function EntityToListDto(horse: Option<Horse>, owners: map<int, OwnerDto>): (r: Result<Option<HorseListDto>, FatalException>)
    ensures horse.None? ==> r == Success(None)
    ensures r.Failure? <==> horse.Some? && OwnerMissing(horse.value, owners)
    ensures r.Failure? ==> r.error == FatalException(MissingOwnerMessage(horse.value.id))
    ensures r.Success? && horse.Some? ==> r.value.Some? && IsListDtoOf(horse.value, owners, r.value.value)
  {
    match horse
    case None => Success(None)
    case Some(h) =>
      match GetOwner(h, owners)
      case Failure(e) => Failure(e)
      case Success(owner) =>
        Success(Some(HorseListDto(h.id, h.name, h.description, h.dateOfBirth, h.sex, owner)))
  }

  /** `entityToDetailDto`: as `EntityToListDto`, with the given parents
      passed through. */
  function EntityToDetailDto(horse: Option<Horse>, owners: map<int, OwnerDto>,
                             mother: Option<HorseDetailDto>, father: Option<HorseDetailDto>)
    : (r: Result<Option<HorseDetailDto>, FatalException>)
    ensures horse.None? ==> r == Success(None)
    ensures r.Failure? <==> horse.Some? && OwnerMissing(horse.value, owners)
    ensures r.Failure? ==> r.error == FatalException(MissingOwnerMessage(horse.value.id))
    ensures r.Success? && horse.Some? ==> r.value.Some? && IsDetailDtoOf(horse.value, owners, mother, father, r.value.value)
  {
    match horse
    case None => Success(None)
    case Some(h) =>
      match GetOwner(h, owners)
      case Failure(e) => Failure(e)
      case Success(owner) =>
        Success(Some(HorseDetailDto(h.id, h.name, h.description, h.dateOfBirth, h.sex, owner, mother, father)))
  }

  /** The private, unused `getHorse`: a null id gives null, an id missing from
      the map throws, any other id gives the map's entry. */
  function GetHorse(horseId: Option<int>, horses: map<int, HorseDetailDto>): (r: Result<Option<HorseDetailDto>, FatalException>)
    ensures horseId.None? ==> r == Success(None)
    ensures r.Failure? <==> horseId.Some? && horseId.value !in horses
    ensures r.Failure? ==> r.error == FatalException(MissingHorseMessage(horseId.value))
    ensures r.Success? && horseId.Some? ==> r.value == Some(horses[horseId.value])
  {
    match horseId
    case None => Success(None)
    case Some(k) =>
      if k !in horses then Failure(FatalException(MissingHorseMessage(k)))
      else Success(Some(horses[k]))
  }

  /** The detail view of a horse without its parents. */
  function ToListDto(d: HorseDetailDto): HorseListDto {
    HorseListDto(d.id, d.name, d.description, d.dateOfBirth, d.sex, d.owner)
  }

  /** The two conversions agree: they fail on the same inputs with the same
      exception, and where they succeed the detail DTO, stripped of its
      parents, is the list DTO. */
  lemma DetailAgreesWithList(horse: Option<Horse>, owners: map<int, OwnerDto>,
                             mother: Option<HorseDetailDto>, father: Option<HorseDetailDto>)
    ensures var list := EntityToListDto(horse, owners);
            var detail := EntityToDetailDto(horse, owners, mother, father);
            (list.Failure? <==> detail.Failure?) &&
            (list.Failure? ==> list.error == detail.error) &&
            (list.Success? ==> list.value.None? == detail.value.None?) &&
            (list.Success? && list.value.Some? ==> list.value.value == ToListDto(detail.value.value))
  {
  }

  /** The conversion looks at the owner map only at the horse's own owner id:
      two maps that agree there give the same result. */
  lemma OwnerLookupIsLocal(horse: Option<Horse>, owners1: map<int, OwnerDto>, owners2: map<int, OwnerDto>)
    requires horse.Some? && horse.value.ownerId.Some? ==>
      var k := horse.value.ownerId.value;
      (k in owners1 <==> k in owners2) && (k in owners1 ==> owners1[k] == owners2[k])
    ensures EntityToListDto(horse, owners1) == EntityToListDto(horse, owners2)
  {
  }

  /** Adding owners to the map never turns a successful conversion into a
      different one. */
  lemma ListDtoStableUnderMoreOwners(horse: Option<Horse>, owners: map<int, OwnerDto>, more: map<int, OwnerDto>)
    requires EntityToListDto(horse, owners).Success?
    requires forall k :: k in owners ==> k in more && more[k] == owners[k]
    ensures EntityToListDto(horse, more) == EntityToListDto(horse, owners)
  {
    OwnerLookupIsLocal(horse, owners, more);
  }

  /** The missing-owner exception identifies the horse: distinct horse ids
      give distinct messages. */
  lemma MissingOwnerMessageIdentifiesHorse(id1: Option<int>, id2: Option<int>)
    requires MissingOwnerMessage(id1) == MissingOwnerMessage(id2)
    ensures id1 == id2
  {
    var p := |MissingOwnerPrefix|;
    var m1, m2 := MissingOwnerMessage(id1), MissingOwnerMessage(id2);
    var t1, t2 := FormatNullableId(id1), FormatNullableId(id2);
    assert m1[p..|m1| - 1] == t1;
    assert m2[p..|m2| - 1] == t2;
    assert t1 == t2;
    if id1.Some? && id2.Some? {
      Decimal.IntToStringInjective(id1.value, id2.value);
    }
  }

  /** The missing-horse exception identifies the requested id. */
  lemma MissingHorseMessageIdentifiesId(id1: int, id2: int)
    requires MissingHorseMessage(id1) == MissingHorseMessage(id2)
    ensures id1 == id2
  {
    var p := |MissingHorsePrefix|;
    assert MissingHorseMessage(id1)[p..] == Decimal.IntToString(id1);
    assert MissingHorseMessage(id2)[p..] == Decimal.IntToString(id2);
    Decimal.IntToStringInjective(id1, id2);
  }
}
