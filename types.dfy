/** Record shapes exchanged with the backend (src/types/index.ts), plus the
    small helpers every other module uses. */
module Types {

  datatype Option<+T> = None | Some(value: T)

  /** JavaScript truthiness of a `string | null | undefined`: present and non-empty. */
  predicate Truthy(s: Option<string>) {
    s.Some? && s.value != ""
  }

  datatype User = User(
    id: string,
    email: string,
    firstName: string,
    lastName: string,
    createdAt: string,
    updatedAt: string)

  datatype RegisterUserDto = RegisterUserDto(
    email: string,
    password: string,
    firstName: string,
    lastName: string)

  datatype LoginDto = LoginDto(email: string, password: string)

  datatype LoginResponse = LoginResponse(accessToken: string, user: User)

  /** The envelope every response uses; `data` and `error` are optional. */
  datatype ApiResponse<T> = ApiResponse(
    success: bool,
    message: string,
    data: Option<T>,
    error: Option<string>)
}
