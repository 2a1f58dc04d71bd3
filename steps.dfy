/** The conversation steps of `ConversationSteps` (src/config.py, repeated in src/handler.py). */
module Steps {
  datatype Step =
    | Inicio
    | EsperandoFormula
    | EsperandoConsentimiento
    | FormulaAnalizada
    | EsperandoMedicamentos
    | EsperandoCiudad
    | EsperandoCelular
    | EsperandoFechaNacimiento
    | EsperandoRegimen
    | EsperandoDireccion
    | EsperandoFarmacia
    | Completado

  /** The member name of the enum, as Python prints it after the class name. */
  function Name(s: Step): string {
    match s
    case Inicio => "INICIO"
    case EsperandoFormula => "ESPERANDO_FORMULA"
    case EsperandoConsentimiento => "ESPERANDO_CONSENTIMIENTO"
    case FormulaAnalizada => "FORMULA_ANALIZADA"
    case EsperandoMedicamentos => "ESPERANDO_MEDICAMENTOS"
    case EsperandoCiudad => "ESPERANDO_CIUDAD"
    case EsperandoCelular => "ESPERANDO_CELULAR"
    case EsperandoFechaNacimiento => "ESPERANDO_FECHA_NACIMIENTO"
    case EsperandoRegimen => "ESPERANDO_REGIMEN"
    case EsperandoDireccion => "ESPERANDO_DIRECCION"
    case EsperandoFarmacia => "ESPERANDO_FARMACIA"
    case Completado => "COMPLETADO"
  }

  /** `str(step)` for an enum member: "ConversationSteps.<NAME>". */
  function EnumText(s: Step): string {
    "ConversationSteps." + Name(s)
  }
}
