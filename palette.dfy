/** The colour roles of the light and dark themes that the core's rules
    choose between. Which hex value a role has depends on the theme, which
    is outside this model. */
module Palette {

  datatype Role = Primary | IncomeColor | ExpenseColor | ErrorColor | WarningColor | SuccessColor | TextSecondary

  /** A colour is either a fixed hex code or a role of the current theme. */
  datatype Color = Hex(code: string) | Themed(role: Role)
}
