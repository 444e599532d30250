/**
 * The two-step sign-in page: a phone number (and a name when registering)
 * requests a code over WhatsApp, then the code is verified and the session
 * store signs in. API outcomes are parameters.
 */
module Login {
  import opened Wrappers
  import opened Types
  import Auth

  datatype Modo = LoginMode | RegisterMode
  datatype Paso = PhoneStep | CodeStep

  /** `loginPhoneSchema`: at least 8 characters. */
  predicate TelefonoValido(telefono: string) {
    |telefono| >= 8
  }

  /** `registerPhoneSchema`: the phone rule plus a non-empty name. */
  predicate RegistroValido(telefono: string, nombre: string) {
    TelefonoValido(telefono) && |nombre| >= 1
  }

  /** `codeSchema`: exactly 6 characters. */
  predicate CodigoValido(codigo: string) {
    |codigo| == 6
  }

  /** The body of `POST /auth/solicitar-codigo`. */
  datatype SolicitudCodigo = SolicitudCodigo(telefono: string, nombre: Option<string>)

  /** The body of `POST /auth/verificar-codigo`. */
  datatype Verificacion = Verificacion(telefono: string, codigo: string)

  /** What verification answered: `{ accessToken, usuario }`. */
  datatype RespuestaVerificacion = RespuestaVerificacion(accessToken: Option<string>, usuario: Option<Usuario>)

  class LoginPage {
    const auth: Auth.AuthStore
    var modo: Modo
    var paso: Paso
    var telefono: string
    var esNuevoUsuario: bool

    constructor (auth: Auth.AuthStore)
      ensures this.auth == auth
      ensures modo == LoginMode && paso == PhoneStep && telefono == "" && !esNuevoUsuario
    {
      this.auth := auth;
      modo := LoginMode;
      paso := PhoneStep;
      telefono := "";
      esNuevoUsuario := false;
    }

    method SetModo(m: Modo)
      modifies this`modo
      ensures modo == m
    {
      modo := m;
    }

    /**
     * `onSubmitLoginPhone` behind its schema: an invalid phone sends nothing;
     * otherwise the code is requested, and only a successful request
     * (`respuesta` = the `esNuevoUsuario` answer) records the phone and moves
     * to the code step.
     */
    method OnSubmitLoginPhone(tel: string, respuesta: Option<bool>) returns (req: Option<SolicitudCodigo>)
      modifies this`paso, this`telefono, this`esNuevoUsuario
      ensures !TelefonoValido(tel) ==> req == None
      ensures TelefonoValido(tel) ==> req == Some(SolicitudCodigo(tel, None))
      ensures TelefonoValido(tel) && respuesta.Some? ==>
        paso == CodeStep && telefono == tel && esNuevoUsuario == respuesta.value
      ensures !TelefonoValido(tel) || respuesta.None? ==>
        paso == old(paso) && telefono == old(telefono) && esNuevoUsuario == old(esNuevoUsuario)
    {
      if !TelefonoValido(tel) {
        return None;
      }
      req := Some(SolicitudCodigo(tel, None));
      if respuesta.Some? {
        telefono := tel;
        esNuevoUsuario := respuesta.value;
        paso := CodeStep;
      }
    }

    /** `onSubmitRegisterPhone` behind its schema: as the login variant, with the name sent too. */
    method OnSubmitRegisterPhone(tel: string, nombre: string, respuesta: Option<bool>)
      returns (req: Option<SolicitudCodigo>)
      modifies this`paso, this`telefono, this`esNuevoUsuario
      ensures !RegistroValido(tel, nombre) ==> req == None
      ensures RegistroValido(tel, nombre) ==> req == Some(SolicitudCodigo(tel, Some(nombre)))
      ensures RegistroValido(tel, nombre) && respuesta.Some? ==>
        paso == CodeStep && telefono == tel && esNuevoUsuario == respuesta.value
      ensures !RegistroValido(tel, nombre) || respuesta.None? ==>
        paso == old(paso) && telefono == old(telefono) && esNuevoUsuario == old(esNuevoUsuario)
    {
      if !RegistroValido(tel, nombre) {
        return None;
      }
      req := Some(SolicitudCodigo(tel, Some(nombre)));
      if respuesta.Some? {
        telefono := tel;
        esNuevoUsuario := respuesta.value;
        paso := CodeStep;
      }
    }

    /** "Cambiar teléfono": back to the phone step, in the same mode. */
    method CambiarTelefono()
      modifies this`paso
      ensures paso == PhoneStep
    {
      paso := PhoneStep;
    }

    /**
     * `onSubmitCode` behind its schema: the recorded phone is sent with the
     * code; only a response carrying a truthy `accessToken` signs in (through
     * `login`, with the fetched profile `perfil` when no user came back) and
     * navigates home.
     */
    method OnSubmitCode(codigo: string, respuesta: Option<RespuestaVerificacion>, perfil: Option<Usuario>)
      returns (req: Option<Verificacion>, navegaInicio: bool)
      modifies auth
      ensures !CodigoValido(codigo) ==> req == None
      ensures CodigoValido(codigo) ==> req == Some(Verificacion(telefono, codigo))
      ensures navegaInicio <==> CodigoValido(codigo) && respuesta.Some? && Auth.Truthy(respuesta.value.accessToken)
      ensures !navegaInicio ==> (auth.user == old(auth.user) && auth.token == old(auth.token)
        && auth.storage == old(auth.storage) && auth.isLoading == old(auth.isLoading))
      ensures navegaInicio ==> (auth.token == respuesta.value.accessToken && !auth.isLoading
        && auth.storage == old(auth.storage)[Auth.TokenKey := respuesta.value.accessToken.value])
      ensures navegaInicio && respuesta.value.usuario.Some? ==> auth.user == respuesta.value.usuario
      ensures navegaInicio && respuesta.value.usuario.None? && perfil.Some? ==> auth.user == perfil
      ensures navegaInicio && respuesta.value.usuario.None? && perfil.None? ==> auth.user == old(auth.user)
    {
      navegaInicio := false;
      if !CodigoValido(codigo) {
        return None, false;
      }
      req := Some(Verificacion(telefono, codigo));
      if respuesta.None? {
        return;
      }
      var accessToken := respuesta.value.accessToken;
      if !Auth.Truthy(accessToken) {
        return;
      }
      auth.Login(accessToken.value, respuesta.value.usuario, perfil);
      navegaInicio := true;
    }
  }
}
