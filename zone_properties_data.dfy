/** Zone properties read from the structural data of the study area: the
    zone classification and the area type of a zone.

    StructuralData.java and AreaTypeRepository.java are not part of this
    model. The structural data is a table of text values keyed by zone id
    and attribute name; reading a value that is not there is an error. The
    area-type repository is three lookups: by numeric code, by name, and the
    default. */
module ZoneProperties {
  import opened Wrappers
  import opened Decimal
  import opened Domain

  const NewClassificationKey: string := "zoneclassification"
  const OldClassificationKey: string := "Outlyingarea"
  const AreaTypeKey: string := "AreaType"

  datatype ZoneDataError = MissingValue(zoneId: string, key: string) | NotANumber(text: string)

  datatype StructuralData = StructuralData(values: map<string, map<string, string>>) {
    predicate HasValue(zoneId: string, key: string) {
      zoneId in values && key in values[zoneId]
    }

    function GetValue(zoneId: string, key: string): (r: Result<string, ZoneDataError>)
      ensures r.Success? <==> HasValue(zoneId, key)
      ensures r.Success? ==> r.value == values[zoneId][key]
    {
      if HasValue(zoneId, key) then Success(values[zoneId][key]) else Failure(MissingValue(zoneId, key))
    }
  }

  datatype AreaTypeRepository<A> = AreaTypeRepository(
    typeForCode: int -> A,
    typeForName: string -> A,
    defaultType: A)

  /** The classification a decoded classification number stands for. */
  function ClassificationOfCode(code: int): (c: ZoneClassificationType)
    ensures c == StudyArea <==> code == 0
    ensures c == ExtendedStudyArea <==> code == 1
    ensures c == OutlyingArea <==> code != 0 && code != 1
  {
    if 0 == code then StudyArea
    else if 1 == code then ExtendedStudyArea
    else OutlyingArea
  }

  /** A number written for a classification in the structural data: 0 and 1
      for the two study areas, and 2 standing for any other number, all of
      which decode as an outlying area. */
  function CodeOfClassification(c: ZoneClassificationType): (code: int)
    ensures ClassificationOfCode(code) == c
  {
    match c
    case StudyArea => 0
    case ExtendedStudyArea => 1
    case OutlyingArea => 2
  }

  datatype ZonePropertiesData<A> = ZonePropertiesData(data: StructuralData, areaTypeRepository: AreaTypeRepository<A>) {

    /** The classification text: under the new key when the zone has it,
        otherwise under the old key. */
    function ClassificationValue(zoneId: string): (r: Result<string, ZoneDataError>)
      ensures data.HasValue(zoneId, NewClassificationKey) ==> r == Success(data.values[zoneId][NewClassificationKey])
      ensures !data.HasValue(zoneId, NewClassificationKey) ==> r == data.GetValue(zoneId, OldClassificationKey)
    {
      if data.HasValue(zoneId, NewClassificationKey) then data.GetValue(zoneId, NewClassificationKey)
      else data.GetValue(zoneId, OldClassificationKey)
    }

    /** 0 is the study area, 1 the extended study area and every other
        number the outlying area; a text that is not a number is an error. */
    function CurrentClassification(zoneId: string): (r: Result<ZoneClassificationType, ZoneDataError>)
      ensures ClassificationValue(zoneId).Failure? ==> r == Failure(ClassificationValue(zoneId).error)
      ensures ClassificationValue(zoneId).Success? ==>
        var text := ClassificationValue(zoneId).value;
        match ParseInt(text)
        case None => r == Failure(NotANumber(text))
        case Some(code) => r == Success(ClassificationOfCode(code))
    {
      match ClassificationValue(zoneId)
      case Failure(e) => Failure(e)
      case Success(text) =>
        match ParseInt(text)
        case None => Failure(NotANumber(text))
        case Some(code) => Success(ClassificationOfCode(code))
    }

    /** A numeric area type is looked up by code; otherwise the empty text
        gives the default and any other text is looked up by name. */
    function CurrentZoneAreaType(zoneId: string): (r: Result<A, ZoneDataError>)
      ensures r.Success? <==> data.HasValue(zoneId, AreaTypeKey)
      ensures data.HasValue(zoneId, AreaTypeKey) ==>
        var text := data.values[zoneId][AreaTypeKey];
        r.value == if ParseInt(text).Some? then areaTypeRepository.typeForCode(ParseInt(text).value)
                   else if text == "" then areaTypeRepository.defaultType
                   else areaTypeRepository.typeForName(text)
    {
      match data.GetValue(zoneId, AreaTypeKey)
      case Failure(e) => Failure(e)
      case Success(text) =>
        match ParseInt(text)
        case Some(code) => Success(areaTypeRepository.typeForCode(code))
        case None => Success(if text == "" then areaTypeRepository.defaultType else areaTypeRepository.typeForName(text))
    }
  }

  /** Writing a classification's number under either key and reading it
      back gives the classification; the new key is preferred over the old. */
  lemma ClassificationRoundTrip<A>(p: ZonePropertiesData<A>, zoneId: string, c: ZoneClassificationType)
    requires zoneId in p.data.values
    ensures
      var row := p.data.values[zoneId][NewClassificationKey := IntToString(CodeOfClassification(c))];
      p.(data := StructuralData(p.data.values[zoneId := row])).CurrentClassification(zoneId) == Success(c)
    ensures
      var row := p.data.values[zoneId][OldClassificationKey := IntToString(CodeOfClassification(c))] - {NewClassificationKey};
      p.(data := StructuralData(p.data.values[zoneId := row])).CurrentClassification(zoneId) == Success(c)
  {
    ParseIntOfIntToString(CodeOfClassification(c));
  }

  /** An area type written as a number is always looked up by that code. */
  lemma NumericAreaTypeUsesCode<A>(p: ZonePropertiesData<A>, zoneId: string, code: int)
    requires IsInt32(code)
    requires p.data.HasValue(zoneId, AreaTypeKey) && p.data.values[zoneId][AreaTypeKey] == IntToString(code)
    ensures p.CurrentZoneAreaType(zoneId) == Success(p.areaTypeRepository.typeForCode(code))
  {
    ParseIntOfIntToString(code);
  }

  /** An empty area type gives the repository default. */
  lemma EmptyAreaTypeIsDefault<A>(p: ZonePropertiesData<A>, zoneId: string)
    requires p.data.HasValue(zoneId, AreaTypeKey) && p.data.values[zoneId][AreaTypeKey] == ""
    ensures p.CurrentZoneAreaType(zoneId) == Success(p.areaTypeRepository.defaultType)
  {
  }
}
