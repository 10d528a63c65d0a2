/** The record shapes the components pass around (types.ts). Optional
    fields become `Option`; optional lists are plain sequences, the empty
    sequence standing for a missing list because every reader treats the
    two alike (`product.ratings || []`). */
module Records {
  import opened Seqs

  /** A catalog entry. `inStock` and `quantity` are separate fields: nothing
      keeps them in step except the operations that set both. */
  datatype Product = Product(
    id: int,
    name: string,
    category: string,
    price: int,
    image: string,
    description: string,
    images: seq<string>,
    inStock: bool,
    company: Option<string>,
    quantity: Option<int>,
    suitableSoil: Option<string>,
    ratings: seq<int>)

  datatype MarketRate = MarketRate(
    id: string,
    date: string,
    crop: string,
    market: string,
    price: string,
    trend: string,
    isAiVerified: bool)

  datatype BullionRate = BullionRate(
    id: string,
    date: string,
    metal: string,
    price: string,
    trend: string)

  datatype FarmerProfile = FarmerProfile(
    id: string,
    name: string,
    location: string,
    achievement: string,
    image: string,
    year: string)

  datatype Visitor = Visitor(
    id: string,
    name: string,
    mobile: string,
    village: string,
    date: string)

  /** One day of the synthetic forecast. */
  datatype DailyWeather = DailyWeather(
    date: string,
    day: string,
    temp: int,
    condition: string,
    rainChance: int,
    windSpeed: int,
    humidity: int,
    isSpraySafe: bool)

  /** The signed-in owner (null when nobody is signed in). */
  datatype User = User(name: string, phone: string)
}
