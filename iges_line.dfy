/**
 * The parameter data of an IGES line entity (type 110) and its conversion
 * into a line entity, driven by the directory entry.
 */
module IgsLineParameter {
  import opened Wrappers

  /** How far the line extends: forms 0, 1 and 2 of entity type 110. */
  datatype IgsBounding = BoundOnBothSides | BoundOnStart | Unbound

  /** The fields of the directory entry the conversion reads. */
  datatype IgsDirectoryData = IgsDirectoryData(lineCount: int, formNumber: int, color: int)

  datatype IgsLineParameterData = IgsLineParameterData(x1: real, y1: real, z1: real, x2: real, y2: real, z2: real)

  datatype IgsLine = IgsLine(x1: real, y1: real, z1: real, x2: real, y2: real, z2: real,
                             bounding: IgsBounding, color: int)

  datatype IgsException = InvalidLineCount | InvalidLineBounding

  /** The form number each bounding is written with; reading it back gives the same bounding. */
  function FormNumber(b: IgsBounding): (form: int)
    ensures 0 <= form <= 2
    ensures GetBounding(form) == Ok(b)
  {
    match b
    case BoundOnBothSides => 0
    case BoundOnStart => 1
    case Unbound => 2
  }

  /** `GetBounding`: forms 0, 1 and 2 name a bounding; any other form is an error. */
  function GetBounding(form: int): (r: Result<IgsBounding, IgsException>)
    ensures r == Ok(BoundOnBothSides) <==> form == 0
    ensures r == Ok(BoundOnStart) <==> form == 1
    ensures r == Ok(Unbound) <==> form == 2
    ensures r.Ok? <==> 0 <= form <= 2
    ensures r.Err? ==> r.error == InvalidLineBounding
  {
    if form == 0 then Ok(BoundOnBothSides)
    else if form == 1 then Ok(BoundOnStart)
    else if form == 2 then Ok(Unbound)
    else Err(InvalidLineBounding)
  }

  /**
   * `ToEntity`: a directory entry spanning other than one parameter line is
   * an error; otherwise the six coordinates are copied, the bounding comes
   * from the form number alone and the colour from the directory entry.
   */
  function ToEntity(data: IgsLineParameterData, dir: IgsDirectoryData): (r: Result<IgsLine, IgsException>)
    ensures dir.lineCount != 1 ==> r == Err(InvalidLineCount)
    ensures dir.lineCount == 1 ==> (r.Ok? <==> GetBounding(dir.formNumber).Ok?)
    ensures dir.lineCount == 1 && r.Err? ==> r.error == InvalidLineBounding
    ensures r.Ok? ==>
      && r.value.x1 == data.x1 && r.value.y1 == data.y1 && r.value.z1 == data.z1
      && r.value.x2 == data.x2 && r.value.y2 == data.y2 && r.value.z2 == data.z2
      && r.value.color == dir.color
      && FormNumber(r.value.bounding) == dir.formNumber
  {
    if dir.lineCount != 1 then Err(InvalidLineCount)
    else
      match GetBounding(dir.formNumber)
      case Err(e) => Err(e)
      case Ok(bounding) => Ok(IgsLine(data.x1, data.y1, data.z1, data.x2, data.y2, data.z2, bounding, dir.color))
  }
}
