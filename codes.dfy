/**
 * HTTP status codes and application error numbers used by the core
 * (src/app/utils/status-code.util.ts, src/app/utils/error-numbers.util.ts).
 */
module Codes {

  const HttpOk := 200
  const HttpCreated := 201
  const HttpNoContent := 204
  const HttpBadRequest := 400
  const HttpUnauthorized := 401
  const HttpNotFound := 404
  const HttpConflict := 409
  const HttpPreconditionFailed := 412
  const HttpInternalServerError := 500

  const ErrValidator := 6
  const ErrInvalidToken := 11
  const ErrTokenNotFound := 14
  const ErrResourceNotFound := 26
  const ErrInvalidResource := 27
  const ErrGeneric := 259
  const ErrResourceAlreadyExists := 260
}
