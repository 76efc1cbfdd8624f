/** Option and Result values for the places where the bot's Python code can fail. */
module Wrappers {

  datatype Option<+T> = None | Some(value: T)

  /** Why a handler stopped early. Each stands for the Python exception raised at that point:
      a KeyError on the template table or the session map, or an IndexError on a list. */
  datatype Failure =
    | UnknownDay         // TEMPLATES[day_code] with a code that is not a key
    | MissingField       // split(":")[1] on data that holds no ':'
    | NoSession          // user_sessions[user_id] for a user without a session
    | NoCurrentExercise  // template[index] with index == len(template)

  datatype Result<+T> = Ok(value: T) | Err(failure: Failure)
}
