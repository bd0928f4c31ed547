/** The exceptions the Ollama client raises, one constructor per `raise` site. */
module Errors {

  datatype ClientError =
    | InvalidNameChars(name: string)          // assert_valid_name: pattern mismatch
    | NameTooLong(name: string)               // assert_valid_name: more than 64 characters
    | UnknownContentType                      // user message part neither text nor image
    | ResponseFormatNotModel                  // response_format is not a Pydantic model class
    | JsonOutputUnsupported                   // json_output=True on a model without JSON output
    | ResponseFormatAndJsonOutputModel        // both name a model class
    | InvalidJsonOutput                       // json_output neither bool nor model class
    | JsonOutputWithFormat                    // json_output together with a `format` argument
    | FormatAssertion                         // `assert response_format_value is None` fails
    | VisionUnsupported                       // image given to a model without vision
    | FunctionCallingUnsupported              // tools given to a model without function calling
    | RequiredWithoutTools                    // tool_choice "required" with no tools
}
