/**
 * The stack navigator's screens and the parameters each `navigation.navigate`
 * call passes along (src/navigation/AppNavigator.js). Money is in cents,
 * durations in hours, timestamps in milliseconds since the epoch.
 */
module Routes {
  datatype Route =
    | Home
    | MobileVerification
    | OTPVerification(phoneNumber: string)
    | ChooseLocker
    | Payment(lockerId: string, isExtending: bool)
    | PINSetup(lockerId: string, duration: int, amount: int, paymentMethod: string)
    | Success(lockerId: string, duration: int, amount: int, pin: string, rentalStartTime: int)

  /** The navigator's `initialRouteName`. */
  const InitialRoute: Route := Home

  /** Pressing the home screen's "Available Lockers" card. */
  function HomeStart(): (r: Route)
    ensures r == MobileVerification
  {
    MobileVerification
  }
}
