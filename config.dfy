/**
  The configuration table the orchestrators read their model names and
  providers from. Its values are not part of the model: every member that
  reads the table takes it as a parameter.
*/
module Settings {

  datatype Config = Config(
    personaModel: string,
    personaProvider: string,
    simulatorModel: string,
    simulatorProvider: string,
    judgeModel: string,
    judgeProvider: string,
    embeddingModel: string,
    embeddingProvider: string)
}
