/**
 * The two exception classes of the Mezzio\Exception namespace that the
 * middleware container and the application factory raise, each carrying what
 * its message names: the identifier that could not be resolved, or the class
 * that is not installed.
 */
module Exceptions {

  datatype Error =
    | MissingDependency(subject: string)
    | InvalidMiddleware(subject: string)
}
