/**
 * The error responses of the recipe handler and the step type that threads
 * "carry on with a value" or "answer now with this error" through its stages.
 */
module Replies {

  /** `response.ok` */
  predicate IsOk(status: int) {
    200 <= status <= 299
  }

  /** A `res.status(status).json({ error })` answer. */
  datatype ErrorReply = ErrorReply(status: int, error: string)

  /** The outcome of one stage of the handler. */
  datatype Step<+T> = Continue(value: T) | Stop(reply: ErrorReply)

  const MissingImage := ErrorReply(400, "Image requise")
  const MissingApiKey := ErrorReply(503, "Clé API OpenAI manquante")
  const Unreachable := ErrorReply(503, "Impossible de se connecter au service. Vérifiez votre connexion internet et réessayez.")
  const UnreadableReply := ErrorReply(500, "Erreur de traitement des données. Veuillez réessayer.")
  const NoRecipe := ErrorReply(500, "Aucune recette générée. Veuillez réessayer.")
  const UnparsableRecipe := ErrorReply(500, "Erreur de traitement des données de recette. Veuillez réessayer.")
  const IncompleteRecipe := ErrorReply(500, "Données de recette incomplètes. Veuillez réessayer.")

  /**
   * The handler's catch-all for anything thrown (a TypeError, a body read
   * twice). The `details` field, the runtime's own message, is not modelled.
   */
  const InternalError := ErrorReply(500, "Erreur interne du serveur")
}
