// The response codes shared by every layer of the streamer.
module Codes {

  datatype ResponseCode =
    | Success
    | FinishedError
    | FileAccessError
    | EofError
    | S3NotSupported
    | GlibcPrerequisite
    | InsufficientFdLimit
    | InvalidParameterError
    | EmptyRequestError
    | BusyError
    | CaFileNotFound
    | UnknownError
    | ObjPluginLoadError
    | GCSNotSupported
    | AzureBlobNotSupported
    | FileTruncatedError
    | TimedOut
    | UnsupportedBackendMix
    | CredentialsAlreadySet
}
