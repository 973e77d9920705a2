/** The two script renderings a performance can use. */
module Constants {

  /** MINIMAL: `NAME: dialogue` per line, components separated by one newline.
      FOUNTAIN: screenplay form, components separated by a blank line. */
  datatype ScriptFormat = Minimal | Fountain
}
