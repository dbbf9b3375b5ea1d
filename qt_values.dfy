/** The Qt values the two models exchange with their views: QVariant results,
    item-data roles and the values handed to setData. */
module QtValues {

  datatype Option<T> = None | Some(value: T)

  /** The unit argument of Brewtarget::displayAmount: kilograms, or none (0). */
  datatype DisplayUnit = Kilograms | NoUnit

  /** A QVariant produced by data(): the invalid variant, a string, a number,
      the text Brewtarget::displayAmount renders for an amount in a unit
      (kept symbolic: the formatter is not part of this model), or a check state. */
  datatype Value =
    | Empty
    | Text(s: string)
    | Number(x: real)
    | Formatted(amount: real, unit: DisplayUnit)
    | Check(checked: bool)

  /** Qt::ItemDataRole as the models distinguish it. OtherRole's code is
      taken to be neither Qt::DisplayRole nor Qt::CheckStateRole. */
  datatype Role = DisplayRole | CheckStateRole | OtherRole(code: int)

  /** A QVariant handed to setData, seen through the conversions the model
      asks for: what toString() gives when canConvert(QVariant::String)
      holds, and what toInt() gives when canConvert(QVariant::Int) holds. */
  datatype Input = Input(asString: Option<string>, asInt: Option<int>)

  /** Qt::Checked, the Qt::CheckState value of a ticked check box. */
  const QtChecked: int := 2
}
