/**
 * The exceptions the modelled core raises or lets through, as values.
 * Each constructor names the PHP exception class it stands for; the
 * message texts are those of the source.
 */
module Errors {

  datatype Option<+T> = None | Some(value: T)

  datatype Error =
    /** `AuthmanAccessTokenException`. */
    | AccessTokenException(message: string)
    /** `AuthmanTokenRenewalException`, optionally wrapping the exception that caused it. */
    | TokenRenewalException(message: string, cause: Option<Error>)
    /** The provider library's `IdentityProviderException`: the authorization server refused. */
    | IdentityProviderException(message: string)
    /** `\InvalidArgumentException`. */
    | InvalidArgument(message: string)
    /** `AuthmanKeyException`. */
    | KeyException(message: string)
    /** `AuthmanClientCredentialsException`. */
    | ClientCredentialsException(message: string)
    /** `AuthmanPluginException`. */
    | PluginException(message: string)
    /** `AuthmanInstanceException`. */
    | InstanceException(message: string)
    /** Symfony's `BadRequestHttpException`. */
    | BadRequest(message: string)
    /** `\BadMethodCallException`, raised by the provider library for a missing grant parameter. */
    | BadMethodCall(message: string)
    /** `\RuntimeException` from the library token's `hasExpired()` when no expiry is set. */
    | ExpiresNotSet
    /** `\UnexpectedValueException`: the token endpoint answered with something that is not a token. */
    | UnexpectedResponse
    /** A transport failure (no response at all); propagated as it is, never wrapped. */
    | TransportFailure
    /** A PHP `Error` from calling a method on `NULL` (the source does not guard these cases). */
    | NullDereference

  datatype Result<+T> = Ok(value: T) | Err(error: Error)

  /** The one error every token accessor raises when no token is set. */
  const TokenNotSet: Error := AccessTokenException("Token not set.")
}
