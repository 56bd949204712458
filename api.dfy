/**
 * The records exchanged with the backend (the Retrofit data classes) and the
 * shape of a reply as the screens observe it.
 */
module Api {
  import opened Wrappers
  import opened Text

  /**
   * A Kotlin `Double` as the form checks see it. Only comparisons with `0.0`
   * matter, and `NaN` compares false with everything.
   */
  datatype Double = Finite(x: real) | PosInfinity | NegInfinity | NaN

  /** `d > 0.0`. */
  predicate GreaterThanZero(d: Double) {
    (d.Finite? && d.x > 0.0) || d.PosInfinity?
  }

  /** `d <= 0.0`. */
  predicate AtMostZero(d: Double) {
    (d.Finite? && d.x <= 0.0) || d.NegInfinity?
  }

  /** `NaN` is neither above zero nor at most zero; every other value is exactly one of the two. */
  lemma ZeroComparisons(d: Double)
    ensures d.NaN? <==> !GreaterThanZero(d) && !AtMostZero(d)
    ensures !(GreaterThanZero(d) && AtMostZero(d))
  {
  }

  /**
   * What a screen observes of `val response = api.call(...)`: the call either
   * throws (the `catch (e: Exception)` branch) or returns a response with an
   * HTTP status flag and a possibly absent body.
   */
  datatype Call<T> = Replied(isSuccessful: bool, body: Option<T>) | Threw {

    /** `response.isSuccessful && body != null`. */
    predicate Delivered() {
      Replied? && isSuccessful && body.Some?
    }
  }

  /** The common part of the `*Response` classes: a `success` flag, a message and the payload. */
  datatype Envelope<P> = Envelope(success: bool, message: Option<string>, payload: P)

  /** `response.isSuccessful && body?.success == true`. */
  predicate Confirmed<P>(c: Call<Envelope<P>>) {
    c.Delivered() && c.body.value.success
  }

  /**
   * How the list screens refresh a list from a reply: a confirmed reply
   * replaces it with the payload, any other reply empties it, and an
   * exception leaves it alone.
   */
  function RefreshedList<T>(current: seq<T>, reply: Call<Envelope<seq<T>>>): (r: seq<T>)
    ensures Confirmed(reply) ==> r == reply.body.value.payload
    ensures reply.Replied? && !Confirmed(reply) ==> r == []
    ensures reply.Threw? ==> r == current
  {
    if Confirmed(reply) then reply.body.value.payload
    else if reply.Replied? then []
    else current
  }

  // ---- LabourApi.kt ----

  datatype ServiceTypeItem = ServiceTypeItem(
    serviceTypeId: Option<int>,
    typeName: string,
    typeDescription: Option<string>,
    subscriptionPlan: Option<string>,
    typePrice: Double,
    photoUrls: seq<string>)

  datatype ServiceItem = ServiceItem(
    serviceId: int,
    serviceName: string,
    description: Option<string>,
    price: Option<Double>,
    duration: Option<string>,
    serviceTypes: seq<ServiceTypeItem>,
    mainImageUrl: Option<string>,
    galleryPhotoUrls: seq<string>)

  datatype CreateServiceRequest = CreateServiceRequest(
    serviceName: string,
    description: Option<string>,
    price: Option<Double>,
    duration: Option<string>,
    serviceTypes: seq<ServiceTypeItem>,
    mainImageUrl: Option<string>,
    galleryPhotoUrls: seq<string>)

  datatype LabourRequestSubmitRequest = LabourRequestSubmitRequest(
    token: string,
    serviceId: int,
    address: string,
    preferredDate: Option<string>,
    notes: Option<string>)

  /** The fields of `LabourRequestResponse` after `success` and `message`. */
  datatype LabourRequestReceipt = LabourRequestReceipt(
    requestId: Option<int>,
    serviceId: Option<int>,
    serviceName: Option<string>,
    userEmail: Option<string>,
    address: Option<string>,
    preferredDate: Option<string>,
    status: Option<string>,
    createdAt: Option<string>)

  type LabourRequestResponse = Envelope<LabourRequestReceipt>

  datatype UserLabourRequestItem = UserLabourRequestItem(
    requestId: Option<int>,
    serviceId: Option<int>,
    serviceName: Option<string>,
    address: Option<string>,
    preferredDate: Option<string>,
    notes: Option<string>,
    status: Option<string>,
    createdAt: Option<string>)

  type UserLabourRequestsResponse = Envelope<seq<UserLabourRequestItem>>

  datatype LabourServiceMapRequest = LabourServiceMapRequest(
    token: string,
    serviceId: int,
    experienceYears: Option<int>,
    notes: Option<string>)

  /** The fields of `LabourServiceMappingResponse` after `success` and `message`. */
  datatype LabourServiceMapping = LabourServiceMapping(
    mappingId: Option<int>,
    serviceId: Option<int>,
    serviceName: Option<string>,
    experienceYears: Option<int>,
    notes: Option<string>,
    createdAt: Option<string>)

  type LabourServiceMappingResponse = Envelope<LabourServiceMapping>

  datatype MappedServiceItem = MappedServiceItem(
    mappingId: Option<int>,
    labourUserId: Option<int>,
    labourName: Option<string>,
    labourEmail: Option<string>,
    serviceId: Option<int>,
    serviceName: Option<string>,
    description: Option<string>,
    experienceYears: Option<int>,
    notes: Option<string>,
    createdAt: Option<string>)

  type LabourMappedServicesResponse = Envelope<seq<MappedServiceItem>>

  /** The query parameters of `getMappedServices` and `getAvailableMappedServices`. */
  datatype MappedServicesQuery = MappedServicesQuery(token: string, search: Option<string>)

  /**
   * The query both mapped-service lists send: nothing without a token, and
   * a blank search sent as `null` (`search.ifBlank { null }`).
   */
  function MappedServicesQueryFor(token: Option<string>, search: string): (q: Option<MappedServicesQuery>)
    ensures q.None? <==> IsNullOrBlank(token)
    ensures q.Some? ==> q.value.token == token.value
    ensures q.Some? ==> (q.value.search.None? <==> IsBlank(search))
    ensures q.Some? && q.value.search.Some? ==> q.value.search.value == search
  {
    if IsNullOrBlank(token) then None else Some(MappedServicesQuery(token.value, IfBlankNull(search)))
  }

  // ---- AuthApi.kt ----

  datatype LoginRequest = LoginRequest(email: string, password: string)

  datatype SendOtpRequest = SendOtpRequest(phoneNumber: string)

  datatype VerifyOtpRequest = VerifyOtpRequest(phoneNumber: string, otpCode: string)

  /** The field of `OtpResponse` after `success` and `message`. */
  datatype OtpDetails = OtpDetails(phoneNumber: Option<string>)

  type OtpResponse = Envelope<OtpDetails>

  datatype RegisterRequest = RegisterRequest(
    name: string,
    email: string,
    password: string,
    role: Option<string>,
    profileImageUrl: Option<string>)

  /** The fields of `AuthResponse` after `success` and `message`. */
  datatype AuthDetails = AuthDetails(
    token: Option<string>,
    name: Option<string>,
    email: Option<string>,
    role: Option<string>,
    profileImageUrl: Option<string>)

  type AuthResponse = Envelope<AuthDetails>

  // ---- QueryApi.kt ----

  datatype CustomerQueryRequest = CustomerQueryRequest(email: string, subject: string, message: string)

  /** The fields of `CustomerQueryResponse` after `success` and `message`. */
  datatype CustomerQueryReceipt = CustomerQueryReceipt(
    queryId: Option<int>,
    email: Option<string>,
    subject: Option<string>,
    createdAt: Option<string>,
    status: Option<string>)

  type CustomerQueryResponse = Envelope<CustomerQueryReceipt>
}
