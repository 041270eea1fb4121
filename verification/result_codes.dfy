/**
 * The result codes (kwlResultCode, kwlDataValidationResult) the tools return.
 * StreamError is not one of them: the model uses it where a loader reads past the
 * end of its file or finds no chunk with a wanted id, cases whose outcome depends
 * on kwl_inputstream.c, which is not part of this model.
 */
module ResultCodes {
  datatype ResultCode =
    | Success                          // KWL_SUCCESS
    | DataIsValid                      // KWL_DATA_IS_VALID
    | CouldNotOpenWaveBankBinaryFile   // KWL_COULD_NOT_OPEN_WAVE_BANK_BINARY_FILE
    | CouldNotOpenEngineDataBinaryFile // KWL_COULD_NOT_OPEN_ENGINE_DATA_BINARY_FILE
    | InvalidFileIdentifier            // KWL_INVALID_FILE_IDENTIFIER
    | EngineDataStructureError         // KWL_ENGINE_DATA_STRUCTURE_ERROR
    | WaveBankIdNotFound               // KWL_WAVE_BANK_ID_NOT_FOUND
    | InvalidPath                      // KWL_INVALID_PATH
    | External(code: int)              // a code passed through from a collaborator
    | StreamError
}
