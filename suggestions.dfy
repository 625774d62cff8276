/**
 * The dashboard server's advice, dashboard/suggestions.go: a list of
 * messages built from the current and the presence of one reading.
 */
module Suggestions {

  const LucesEncendidas: string := "Las luces están encendidas. Considera apagarlas si no hay nadie en la habitación."
  const AireEncendido: string := "El aire acondicionado está encendido. Asegúrate de que sea necesario."
  const Ahorro: string := "Las luces y el aire acondicionado están apagados. Buen trabajo en el ahorro energético!"
  const ConsumoAlto: string := "El consumo de corriente es alto. Considera revisar los dispositivos conectados."

  /** The current above which the high-consumption advice is added. */
  const CorrienteAlta: real := 3.0

  /**
   * GenerateSuggestions: with presence the lights and then the air
   * conditioning advice, without it the single energy-saving message;
   * above 3 A the high-consumption advice comes last.
   */
  method GenerateSuggestions(currentA: real, presence: bool) returns (suggestions: seq<string>)
    ensures presence ==> |suggestions| >= 2 && suggestions[..2] == [LucesEncendidas, AireEncendido]
    ensures !presence ==> |suggestions| >= 1 && suggestions[0] == Ahorro
    ensures currentA > CorrienteAlta <==> suggestions[|suggestions| - 1] == ConsumoAlto
    ensures |suggestions| == (if presence then 2 else 1) + (if currentA > CorrienteAlta then 1 else 0)
    ensures 1 <= |suggestions| <= 3
  {
    suggestions := [];
    if presence {
      suggestions := suggestions + [LucesEncendidas];
      suggestions := suggestions + [AireEncendido];
    } else {
      suggestions := suggestions + [Ahorro];
    }
    if currentA > CorrienteAlta {
      suggestions := suggestions + [ConsumoAlto];
    }
  }
}
