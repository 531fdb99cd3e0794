/**
 * The globe's fixed city table and the list of key connections between
 * cities (Earth.jsx).
 */
module CityTable {

  datatype Testimonial = Testimonial(quote: string, name: string, designation: string, avatar: string)

  datatype City = City(name: string, lat: real, lng: real, testimonial: Testimonial)

  const CityCount: nat := 14

  const Cities: seq<City> := [
    City("New York", 40.7128, -74.0060, Testimonial(
      "The attention to detail and innovative features have completely transformed our workflow. This is exactly what we've been looking for.",
      "Sarah Chen", "Product Manager at TechFlow", "/avatar-1.jpg")),
    City("London", 51.5072, -0.1276, Testimonial(
      "Implementation was seamless and the results exceeded our expectations. The platform's flexibility is remarkable.",
      "Michael Rodriguez", "CTO at InnovateSphere", "/avatar-2.jpg")),
    City("Tokyo", 35.6895, 139.6917, Testimonial(
      "This solution has significantly improved our team's productivity. The intuitive interface makes complex tasks simple.",
      "Emily Watson", "Operations Director at CloudScale", "/avatar-3.jpg")),
    City("Sydney", -33.8688, 151.2093, Testimonial(
      "Outstanding support and robust features. It's rare to find a product that delivers on all its promises.",
      "James Kim", "Engineering Lead at DataPro", "/avatar-4.jpg")),
    City("Delhi", 28.6139, 77.2090, Testimonial(
      "The scalability and performance have been game-changing for our organization. Highly recommend to any growing business.",
      "Lisa Thompson", "VP of Technology at FutureNet", "/avatar-5.jpg")),
    City("Los Angeles", 34.0522, -118.2437, Testimonial(
      "The global reach of this platform has allowed us to find talent we never would have discovered otherwise.",
      "David Park", "Collaboration Director at CreativeMinds", "/avatar-6.jpg")),
    City("Rio", -22.9068, -43.1729, Testimonial(
      "The AI matching algorithm provided us with candidates who were perfect cultural fits for our team.",
      "Ana Oliveira", "HR Manager at TechSolutions", "/avatar-7.jpg")),
    City("Cape Town", -33.9249, 18.4241, Testimonial(
      "We've reduced our hiring time by 40% since implementing this platform. The quality of matches is outstanding.",
      "Thabo Nkosi", "Talent Acquisition Lead at AfriTech", "/avatar-8.jpg")),
    City("Paris", 48.8566, 2.3522, Testimonial(
      "The platform's AI-driven insights have revolutionized our hiring process.",
      "Claire Dubois", "HR Specialist at InnovateHR", "/avatar-9.jpg")),
    City("Berlin", 52.52, 13.405, Testimonial(
      "The user-friendly interface and powerful features make this platform a must-have.",
      "Hans Müller", "Collaboration Manager at TechBridge", "/avatar-10.jpg")),
    City("Moscow", 55.7558, 37.6173, Testimonial(
      "The platform's global reach has been instrumental in finding top talent.",
      "Olga Ivanova", "Talent Acquisition Lead at GlobalTech", "/avatar-11.jpg")),
    City("Beijing", 39.9042, 116.4074, Testimonial(
      "The advanced analytics and insights have helped us make data-driven decisions.",
      "Li Wei", "HR Director at FutureVision", "/avatar-12.jpg")),
    City("Singapore", 1.3521, 103.8198, Testimonial(
      "The platform's seamless integration with our existing tools is a game-changer.",
      "Amar Singh", "Operations Manager at TalentFlow", "/avatar-13.jpg")),
    City("Dubai", 25.276987, 55.296249, Testimonial(
      "The platform's innovative features have streamlined our Collaboration process.",
      "Aisha Al-Farsi", "HR Manager at GulfRecruit", "/avatar-14.jpg"))
  ]

  /** The fixed connections drawn first, as pairs of indices into `Cities`. */
  const KeyConnections: seq<(nat, nat)> := [
    (0, 1), (0, 6), (1, 8), (2, 11), (3, 7), (4, 10),
    (5, 0), (8, 9), (11, 12), (12, 13), (13, 4)
  ]

  /** The table holds 14 cities, each at a valid latitude and longitude. */
  lemma CityTableShape()
    ensures |Cities| == CityCount
    ensures forall k :: 0 <= k < |Cities| ==>
      -90.0 <= Cities[k].lat <= 90.0 && -180.0 <= Cities[k].lng <= 180.0
  {
  }

  /** Every key pair joins two different cities of the table. */
  lemma KeyConnectionsValid()
    ensures |KeyConnections| == 11
    ensures forall k :: 0 <= k < |KeyConnections| ==>
      KeyConnections[k].0 < |Cities| && KeyConnections[k].1 < |Cities| &&
      KeyConnections[k].0 != KeyConnections[k].1
  {
  }

  /** No key pair is listed twice, in either orientation. */
  lemma KeyConnectionsDistinct()
    ensures forall k, m :: 0 <= k < m < |KeyConnections| ==>
      KeyConnections[k] != KeyConnections[m] &&
      KeyConnections[k] != (KeyConnections[m].1, KeyConnections[m].0)
  {
  }
}
