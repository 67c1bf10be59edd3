/** Record shapes of the grocery price service: the historical price entries
    read from the product price table and the grocery items that carry a
    predicted price to storage. */
module Records {

  /** A calendar month number, as a DateTime's Month is. */
  type MonthOfYear = m: int | 1 <= m <= 12 witness 1

  /** A day of the month, as a DateTime's Day is. */
  type DayOfMonth = d: int | 1 <= d <= 31 witness 1

  /** The calendar date part of a DateTime. */
  datatype Date = Date(year: int, month: MonthOfYear, day: DayOfMonth)

  /** Number of whole months since year 0, January: consecutive months have
      consecutive indices. */
  function MonthIndex(d: Date): int
  {
    d.year * 12 + d.month - 1
  }

  /** An integer that orders dates as DateTime comparison does. */
  function DateKey(d: Date): int
  {
    MonthIndex(d) * 31 + d.day - 1
  }

  /** DateKey orders dates by year, then month, then day. */
  lemma DateKeyIsLexicographic(a: Date, b: Date)
    ensures DateKey(a) <= DateKey(b) <==>
              a.year < b.year ||
              (a.year == b.year && (a.month < b.month || (a.month == b.month && a.day <= b.day)))
  {
  }

  /** A date that is not later than another lies in the same or an earlier month. */
  lemma DateKeyOrdersMonths(a: Date, b: Date)
    requires DateKey(a) <= DateKey(b)
    ensures MonthIndex(a) <= MonthIndex(b)
  {
  }

  /** One row of the product price table (ProductPriceEntry). */
  datatype ProductPriceEntry = ProductPriceEntry(productName: string, month: Date, price: real)

  /** A grocery item as handed to storage; the generated identifier is not modelled. */
  datatype GroceryItem = GroceryItem(year: int, month: int, itemName: string, price: real, modelUsed: string)
}
