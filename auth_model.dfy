/** The signed-in user and the authentication payloads. */
module AuthModel {
  import opened Common

  datatype User = User(
    id: string,
    name: string,
    email: string,
    isEmailVerified: bool,
    avatar: Option<string>)

  datatype Token = Token(token: string, expires: string)

  datatype Tokens = Tokens(access: Token, refresh: Token)

  /** What login and register answer with. */
  datatype AuthResponse = AuthResponse(user: User, tokens: Tokens)

  datatype LoginRequest = LoginRequest(email: string, password: string)

  datatype RegisterRequest = RegisterRequest(name: string, email: string, password: string)

  datatype LogoutRequest = LogoutRequest(refreshToken: string)
}
