/** The palette roles the screens pick status colours from. */
module ThemeColors {
  datatype ColorRole = Primary | Secondary | Error | OnSurfaceVariant
}
